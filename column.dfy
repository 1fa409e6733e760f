/** Column proxies of a data frame (include/dataframe/column.hpp).

    A `ConstColumnProxy` is a column name and, when the column exists, the
    single array holding its data. A `ColumnProxy` additionally refers to the
    table variable of its data frame, and assigning to it replaces, appends or
    creates a column of that table. */
module Columns {
  import opened Wrappers
  import opened ArrowTypes
  import DataTypes

  const ChunkedError := "Chunked array not supported"
  const SliceError := "Slicing out of range"
  const UnknownError := "Unknown dtype cannot be compared"
  const LengthError := "New column length is not the same as the old column"
  const ScalarError := "Cannot assign scalar to an empty DataFrame"

  function EmptyError(name: string): string {
    "Attempt to access an empty column '" + name + "'"
  }

  /** `2^63`: lengths and `int64_t` casts stay below it. */
  const Int64Bound: nat := 0x8000_0000_0000_0000

  // ---------------------------------------------------------------------
  // Column data

  /** The array behind a column: its type id, its slice of the shared value
      and validity buffers (`offset`, `length`), the validity bitmap if it
      has one, and the value buffer. */
  datatype ColumnData<V> = ColumnData(
    id: TypeId, offset: nat, length: nat, bitmap: Option<seq<bv8>>, values: seq<V>)

  predicate WF<V>(d: ColumnData<V>) {
    && d.offset + d.length <= |d.values|
    && (d.bitmap.Some? ==> d.offset + d.length <= 8 * |d.bitmap.value|)
  }

  /** Bit `j` of a bitmap, least significant bit first. */
  function Bit(bytes: seq<bv8>, j: nat): bool
    requires j < 8 * |bytes|
  {
    bytes[j / 8] & (1 << (j % 8)) != 0
  }

  /** `IsValid(i)`: the slot's bit, counted from the array's offset; every
      slot of an array without a bitmap is valid. */
  predicate IsValid<V>(d: ColumnData<V>, i: nat)
    requires WF(d) && i < d.length
  {
    d.bitmap.None? || Bit(d.bitmap.value, d.offset + i)
  }

  /** The validity of every slot: what `mask()` is for. */
  function Validity<V>(d: ColumnData<V>): (r: seq<bool>)
    requires WF(d)
    ensures |r| == d.length
    ensures forall i :: 0 <= i < d.length ==> r[i] == IsValid(d, i)
  {
    seq(d.length, i requires 0 <= i < d.length => IsValid(d, i))
  }

  /** The number of null slots among the first `n`. */
  function NullsIn<V>(d: ColumnData<V>, n: nat): nat
    requires WF(d) && n <= d.length
  {
    if n == 0 then 0 else NullsIn(d, n - 1) + (if IsValid(d, n - 1) then 0 else 1)
  }

  /** `null_count()`. */
  function NullCount<V>(d: ColumnData<V>): nat
    requires WF(d)
  {
    NullsIn(d, d.length)
  }

  lemma {:induction false} NoNullsIn<V>(d: ColumnData<V>, n: nat)
    requires WF(d) && n <= d.length
    ensures NullsIn(d, n) == 0 <==> forall i :: 0 <= i < n ==> IsValid(d, i)
  {
    if n > 0 {
      NoNullsIn(d, n - 1);
    }
  }

  /** The null count is zero exactly when every slot is valid. */
  lemma NoNulls<V>(d: ColumnData<V>)
    requires WF(d)
    ensures NullCount(d) == 0 <==> forall i :: 0 <= i < d.length ==> IsValid(d, i)
  {
    NoNullsIn(d, d.length);
  }

  /** The logical contents: a valid slot holds its value, a null slot none. */
  function Contents<V>(d: ColumnData<V>): (r: seq<Option<V>>)
    requires WF(d)
    ensures |r| == d.length
  {
    seq(d.length, i requires 0 <= i < d.length =>
      if IsValid(d, i) then Some(d.values[d.offset + i]) else None)
  }

  /** `arrow::Array::Slice(off, len)`: the same buffers, seen from a later
      offset. */
  function SliceData<V>(d: ColumnData<V>, off: nat, len: nat): (r: ColumnData<V>)
    requires WF(d) && off + len <= d.length
    ensures WF(r) && r.id == d.id && r.length == len
    ensures Contents(r) == Contents(d)[off..off + len]
  {
    var r := d.(offset := d.offset + off, length := len);
    assert Contents(r) == Contents(d)[off..off + len] by {
      forall i | 0 <= i < len ensures Contents(r)[i] == Contents(d)[off + i] {
      }
    }
    r
  }

  // ---------------------------------------------------------------------
  // mask()

  /** What `mask()` computes: all `true` when there are no nulls or no
      bitmap, otherwise bit `i` of the bitmap buffer for slot `i`. The buffer
      is the whole shared bitmap, so the array's offset is not applied. */
  function MaskAsWritten<V>(d: ColumnData<V>): (r: seq<bool>)
    requires WF(d)
    ensures |r| == d.length
  {
    if NullCount(d) == 0 || d.bitmap.None? then seq(d.length, _ => true)
    else seq(d.length, i requires 0 <= i < d.length => Bit(d.bitmap.value, i))
  }

  /** On an array that does not start inside its buffers, the mask as
      written is the validity of each slot. */
  lemma MaskAsWrittenUnsliced<V>(d: ColumnData<V>)
    requires WF(d) && d.offset == 0
    ensures MaskAsWritten(d) == Validity(d)
  {
    NoNulls(d);
  }

  /** Slot 1 of a two-slot array is null; slicing it out gives a one-slot
      array at offset 1 whose only slot is null, yet the mask as written
      reports it valid, reading the bit of slot 0. */
  lemma MaskAsWrittenIgnoresOffset<V>(a: V, b: V)
    ensures var d := ColumnData(INT32, 1, 1, Some([1]), [a, b]);
            WF(d) && Validity(d) == [false] && MaskAsWritten(d) == [true]
  {
    var d := ColumnData(INT32, 1, 1, Some([1 as bv8]), [a, b]);
    assert !Bit([1 as bv8], 1) && Bit([1 as bv8], 0);
    assert !IsValid(d, 0);
    assert NullsIn(d, 0) == 0;
    assert NullCount(d) == 1;
    assert MaskAsWritten(d)[0] == Bit([1 as bv8], 0);
  }

  /** `mask()` with the array's offset applied: one entry per slot, `true`
      where the slot is valid. */
  method Mask<V>(d: ColumnData<V>) returns (ret: array<bool>)
    requires WF(d)
    ensures ret.Length == d.length && ret[..] == Validity(d)
  {
    ret := new bool[d.length](_ => true);
    if NullCount(d) == 0 || d.bitmap.None? {
      NoNulls(d);
      assert ret[..] == Validity(d);
    } else {
      var bits := d.bitmap.value;
      for i := 0 to d.length
        invariant ret.Length == d.length
        invariant forall k :: 0 <= k < i ==> ret[k] == IsValid(d, k)
      {
        ret[i] := Bit(bits, d.offset + i);
      }
      assert ret[..] == Validity(d);
    }
  }

  // ---------------------------------------------------------------------
  // Columns and tables

  /** An `arrow::Column`: a name and the chunks of its data. */
  datatype Column<V> = Column(name: string, chunks: seq<ColumnData<V>>)

  /** An `arrow::Table`: a row count and its columns, named by the schema. */
  datatype Table<V> = Table(numRows: nat, columns: seq<Column<V>>)

  function Rows<V>(chunks: seq<ColumnData<V>>): nat {
    if chunks == [] then 0 else chunks[0].length + Rows(chunks[1..])
  }

  predicate ColumnWF<V>(c: Column<V>) {
    forall k :: 0 <= k < |c.chunks| ==> WF(c.chunks[k])
  }

  /** Every column has the table's row count, and the field names are
      distinct. */
  predicate TableWF<V>(t: Table<V>) {
    && (forall j :: 0 <= j < |t.columns| ==>
          ColumnWF(t.columns[j]) && Rows(t.columns[j].chunks) == t.numRows)
    && (forall i, j :: 0 <= i < j < |t.columns| ==> t.columns[i].name != t.columns[j].name)
  }

  /** `Schema::GetFieldIndex(name)`, with `None` for `-1`. */
  function FieldIndex<V>(cols: seq<Column<V>>, name: string): (r: Option<nat>)
    ensures r.Some? ==> r.value < |cols| && cols[r.value].name == name
    ensures r.None? ==> forall j :: 0 <= j < |cols| ==> cols[j].name != name
  {
    if cols == [] then None
    else if cols[0].name == name then Some(0)
    else match FieldIndex(cols[1..], name)
      case None => None
      case Some(k) => Some(k + 1)
  }

  // ---------------------------------------------------------------------
  // ConstColumnProxy

  datatype ConstProxy<V> = ConstProxy(name: string, data: Option<ColumnData<V>>)

  /** The default constructor: no name, no data. */
  function EmptyProxy<V>(): ConstProxy<V> {
    ConstProxy("", None)
  }

  predicate ProxyWF<V>(p: ConstProxy<V>) {
    p.data.Some? ==> WF(p.data.value)
  }

  /** The constructor from a column: none gives the empty proxy; otherwise
      the column must have exactly one chunk. */
  function FromColumn<V>(c: Option<Column<V>>): (r: Result<ConstProxy<V>, string>)
  {
    if c.None? then Success(EmptyProxy())
    else if |c.value.chunks| != 1 then Failure(ChunkedError)
    else Success(ConstProxy(c.value.name, Some(c.value.chunks[0])))
  }

  /** The constructor from a name and a table: no table, or no column of
      that name, gives a proxy with the name and no data; otherwise the column
      must have exactly one chunk. */
  function FromTable<V>(name: string, t: Option<Table<V>>): (r: Result<ConstProxy<V>, string>)
  {
    if t.None? then Success(ConstProxy(name, None))
    else match FieldIndex(t.value.columns, name)
      case None => Success(ConstProxy(name, None))
      case Some(i) =>
        if |t.value.columns[i].chunks| != 1 then Failure(ChunkedError)
        else Success(ConstProxy(name, Some(t.value.columns[i].chunks[0])))
  }

  /** Construction fails exactly on a column that is not one chunk, and
      otherwise yields the column's name and its only chunk; a missing
      column yields no data. */
  lemma ConstructionSpec<V>(c: Column<V>, name: string, t: Option<Table<V>>)
    requires t.Some? ==> TableWF(t.value)
    ensures FromColumn(Some(c)).Failure? <==> |c.chunks| != 1
    ensures FromColumn(Some(c)).Success? ==> FromColumn(Some(c)).value == ConstProxy(c.name, Some(c.chunks[0]))
    ensures FromTable(name, t).Success? ==>
              FromTable(name, t).value.name == name && ProxyWF(FromTable(name, t).value)
    ensures FromTable(name, t).Success? && FromTable(name, t).value.data.None? <==>
              t.None? || forall j :: 0 <= j < |t.value.columns| ==> t.value.columns[j].name != name
    ensures FromTable(name, t).Failure? <==>
              t.Some? && exists j :: 0 <= j < |t.value.columns| && t.value.columns[j].name == name
                                     && |t.value.columns[j].chunks| != 1
  {
    if t.Some? {
      var cols := t.value.columns;
      match FieldIndex(cols, name)
      case None =>
      case Some(i) =>
        forall j | 0 <= j < |cols| && cols[j].name == name ensures j == i {
        }
        if |cols[i].chunks| == 1 {
          assert ColumnWF(cols[i]);
          assert WF(cols[i].chunks[0]);
        }
    }
  }

  /** `explicit operator bool()`. */
  predicate IsPresent<V>(p: ConstProxy<V>) {
    p.data.Some?
  }

  /** `size()`: 0 for an empty proxy. */
  function Size<V>(p: ConstProxy<V>): nat {
    if p.data.None? then 0 else p.data.value.length
  }

  /** `dtype()`: `Unknown` for an empty proxy. */
  function Dtype<V>(p: ConstProxy<V>): DataTypes.DataType {
    if p.data.None? then DataTypes.Unknown else DataTypes.Dtype(p.data.value.id)
  }

  /** `as<T>()`: the conversion itself (`cast_array`) is not part of this
      model, so success carries the column's data. */
  function As<V>(p: ConstProxy<V>): (r: Result<ColumnData<V>, string>)
  {
    if p.data.None? then Failure(EmptyError(p.name)) else Success(p.data.value)
  }

  /** An empty proxy has size 0 and dtype `Unknown`, and `as` on it raises;
      a proxy with data has that data's length and type, and `as` gives the
      data. */
  lemma EmptyProxySpec<V>(p: ConstProxy<V>)
    ensures !IsPresent(p) ==> Size(p) == 0 && Dtype(p) == DataTypes.Unknown
                              && As(p) == Failure(EmptyError(p.name))
    ensures IsPresent(p) ==> Size(p) == p.data.value.length
                             && Dtype(p) == DataTypes.Dtype(p.data.value.id)
                             && As(p) == Success(p.data.value)
    ensures Dtype(p) != DataTypes.Unknown ==> IsPresent(p)
  {
  }

  /** `operator()(begin, end)` on a proxy with data. `begin` and `end` are
      `size_t` values below `2^63`, which the `int64_t` casts keep. */
  function Slice<V>(p: ConstProxy<V>, begin: nat, end: nat): (r: Result<ConstProxy<V>, string>)
    requires p.data.Some? && WF(p.data.value) && end < Int64Bound
  {
    var d := p.data.value;
    if end > d.length then Failure(SliceError)
    else if end <= begin then Success(EmptyProxy())
    else if begin == d.length then Success(EmptyProxy())
    else Success(ConstProxy(p.name, Some(SliceData(d, begin, end - begin))))
  }

  /** Slicing raises exactly when `end` is past the column; an empty range
      gives the empty proxy (with no name); otherwise the slice keeps the
      name and holds slots `begin` to `end` of the column. */
  lemma SliceSpec<V>(p: ConstProxy<V>, begin: nat, end: nat)
    requires p.data.Some? && WF(p.data.value) && end < Int64Bound
    ensures Slice(p, begin, end).Failure? <==> end > Size(p)
    ensures end <= Size(p) && end <= begin ==> Slice(p, begin, end) == Success(EmptyProxy())
    ensures end <= Size(p) && begin < end ==>
              && Slice(p, begin, end).Success?
              && Slice(p, begin, end).value.name == p.name
              && Size(Slice(p, begin, end).value) == end - begin
              && Dtype(Slice(p, begin, end).value) == Dtype(p)
              && Contents(Slice(p, begin, end).value.data.value) == Contents(p.data.value)[begin..end]
  {
  }

  // ---------------------------------------------------------------------
  // operator== and operator!=

  /** Equal contents, for two proxies with data. */
  predicate SameContents<V(==)>(a: ConstProxy<V>, b: ConstProxy<V>)
    requires a.data.Some? && b.data.Some? && WF(a.data.value) && WF(b.data.value)
  {
    Contents(a.data.value) == Contents(b.data.value)
  }

  /** `operator==` with its missing `Bool` case: the switch over the dtype
      has no `Bool` case, so two `Bool` columns that pass the pre-checks fall
      through to `return true`. Every other known dtype is compared by
      logical contents, which abstracts from the views the source compares. */
  function EqAsWritten<V(==)>(a: ConstProxy<V>, b: ConstProxy<V>): (r: Result<bool, string>)
    requires ProxyWF(a) && ProxyWF(b)
  {
    if a.name != b.name then Success(false)
    else if Size(a) != Size(b) then Success(false)
    else if Dtype(a) != Dtype(b) then Success(false)
    else if Dtype(a) == DataTypes.Unknown then Failure(UnknownError)
    else if Dtype(a) == DataTypes.Bool then Success(true)
    else Success(SameContents(a, b))
  }

  /** `operator==` with every comparable dtype compared by contents. */
  function Eq<V(==)>(a: ConstProxy<V>, b: ConstProxy<V>): (r: Result<bool, string>)
    requires ProxyWF(a) && ProxyWF(b)
  {
    if a.name != b.name then Success(false)
    else if Size(a) != Size(b) then Success(false)
    else if Dtype(a) != Dtype(b) then Success(false)
    else if Dtype(a) == DataTypes.Unknown then Failure(UnknownError)
    else Success(SameContents(a, b))
  }

  /** `operator!=`: the negation of `==`, raising when it raises. */
  function Ne<V(==)>(a: ConstProxy<V>, b: ConstProxy<V>): (r: Result<bool, string>)
    requires ProxyWF(a) && ProxyWF(b)
  {
    match Eq(a, b)
    case Success(x) => Success(!x)
    case Failure(e) => Failure(e)
  }

  /** Proxies differing in name, size or dtype are unequal; two proxies of
      one name, size and unknown dtype (two empty ones, say) cannot be
      compared. */
  lemma EqPrechecks<V>(a: ConstProxy<V>, b: ConstProxy<V>)
    requires ProxyWF(a) && ProxyWF(b)
    ensures a.name != b.name || Size(a) != Size(b) || Dtype(a) != Dtype(b) ==>
              Eq(a, b) == Success(false) && EqAsWritten(a, b) == Success(false)
    ensures a.name == b.name && Size(a) == Size(b) && Dtype(a) == Dtype(b) == DataTypes.Unknown ==>
              Eq(a, b) == Failure(UnknownError) && EqAsWritten(a, b) == Failure(UnknownError)
  {
  }

  /** Equality holds exactly for proxies with the same name, the same known
      dtype and the same contents (which fixes the size). */
  lemma EqSpec<V>(a: ConstProxy<V>, b: ConstProxy<V>)
    requires ProxyWF(a) && ProxyWF(b)
    ensures Eq(a, b) == Success(true) <==>
              && a.name == b.name
              && Dtype(a) == Dtype(b) != DataTypes.Unknown
              && a.data.Some? && b.data.Some?
              && Contents(a.data.value) == Contents(b.data.value)
    ensures Eq(a, b) == Eq(b, a)
    ensures Ne(a, b).Success? <==> Eq(a, b).Success?
    ensures Ne(a, b).Success? ==> Ne(a, b).value == !Eq(a, b).value
  {
    if a.data.Some? && b.data.Some? && Contents(a.data.value) == Contents(b.data.value) {
      assert |Contents(a.data.value)| == Size(a);
    }
  }

  /** The two definitions differ only on `Bool` columns. */
  lemma EqAsWrittenDiffers<V>(a: ConstProxy<V>, b: ConstProxy<V>)
    requires ProxyWF(a) && ProxyWF(b)
    ensures Dtype(a) != DataTypes.Bool ==> EqAsWritten(a, b) == Eq(a, b)
  {
  }

  /** Two `Bool` columns of one name and size whose only values differ:
      `==` as written says equal. */
  lemma BoolColumnsCompareEqual<V>(x: V, y: V)
    requires x != y
    ensures var a := ConstProxy("flag", Some(ColumnData(BOOL, 0, 1, None, [x])));
            var b := ConstProxy("flag", Some(ColumnData(BOOL, 0, 1, None, [y])));
            && ProxyWF(a) && ProxyWF(b)
            && EqAsWritten(a, b) == Success(true)
            && Eq(a, b) == Success(false)
  {
    var a := ConstProxy("flag", Some(ColumnData(BOOL, 0, 1, None, [x])));
    var b := ConstProxy("flag", Some(ColumnData(BOOL, 0, 1, None, [y])));
    assert Dtype(a) == DataTypes.Bool;
    assert Contents(a.data.value)[0] != Contents(b.data.value)[0];
  }

  // ---------------------------------------------------------------------
  // ColumnProxy assignment

  /** Assignment raises when the table has columns and a different row
      count. */
  predicate LengthMismatch<V>(t: Option<Table<V>>, d: ColumnData<V>) {
    t.Some? && |t.value.columns| != 0 && t.value.numRows != d.length
  }

  /** The table after assigning `d` to the column `name`: a new one-column
      table when there was none or it had no columns; the column replaced in
      place when the name exists; appended last otherwise. */
  function Assigned<V>(t: Option<Table<V>>, name: string, d: ColumnData<V>): Table<V>
    requires !LengthMismatch(t, d)
  {
    var col := Column(name, [d]);
    if t.None? || |t.value.columns| == 0 then Table(d.length, [col])
    else match FieldIndex(t.value.columns, name)
      case Some(i) => t.value.(columns := t.value.columns[i := col])
      case None => t.value.(columns := t.value.columns + [col])
  }

  lemma RowsSingle<V>(d: ColumnData<V>)
    ensures Rows([d]) == d.length
  {
    assert [d][1..] == [];
  }

  /** Assignment keeps the table well formed. */
  lemma AssignedWF<V>(t: Option<Table<V>>, name: string, d: ColumnData<V>)
    requires WF(d) && !LengthMismatch(t, d) && (t.Some? ==> TableWF(t.value))
    ensures TableWF(Assigned(t, name, d))
  {
    RowsSingle(d);
  }

  /** Where the column lands: it is the only column of a table that had
      none; it takes the place of the column of that name; or it is added
      after all the others, which stay in place. */
  lemma AssignedShape<V>(t: Option<Table<V>>, name: string, d: ColumnData<V>)
    requires !LengthMismatch(t, d)
    ensures var r := Assigned(t, name, d);
            if t.None? || |t.value.columns| == 0 then
              r.columns == [Column(name, [d])] && r.numRows == d.length
            else
              && r.numRows == t.value.numRows
              && match FieldIndex(t.value.columns, name)
                 case Some(i) =>
                   |r.columns| == |t.value.columns| && r.columns[i] == Column(name, [d])
                   && forall j :: 0 <= j < |r.columns| && j != i ==> r.columns[j] == t.value.columns[j]
                 case None =>
                   r.columns == t.value.columns + [Column(name, [d])]
  {
  }

  /** `GetFieldIndex` depends only on the names of the columns. */
  lemma {:induction false} FieldIndexNames<V>(a: seq<Column<V>>, b: seq<Column<V>>, name: string)
    requires |a| == |b| && forall j :: 0 <= j < |a| ==> a[j].name == b[j].name
    ensures FieldIndex(a, name) == FieldIndex(b, name)
  {
    if a != [] {
      FieldIndexNames(a[1..], b[1..], name);
    }
  }

  /** A column added last does not change where other names are found. */
  lemma {:induction false} FieldIndexAppend<V>(a: seq<Column<V>>, c: Column<V>, name: string)
    requires c.name != name
    ensures FieldIndex(a + [c], name) == FieldIndex(a, name)
  {
    if a != [] {
      assert (a + [c])[1..] == a[1..] + [c];
      FieldIndexAppend(a[1..], c, name);
    } else {
      assert [c][1..] == [];
    }
  }

  /** Reading the column back after assignment gives the assigned data. */
  lemma AssignedReadBack<V>(t: Option<Table<V>>, name: string, d: ColumnData<V>)
    requires WF(d) && !LengthMismatch(t, d) && (t.Some? ==> TableWF(t.value))
    ensures FromTable(name, Some(Assigned(t, name, d))) == Success(ConstProxy(name, Some(d)))
  {
    var r := Assigned(t, name, d);
    AssignedWF(t, name, d);
    AssignedShape(t, name, d);
    var j: nat :=
      if t.None? || |t.value.columns| == 0 then 0
      else match FieldIndex(t.value.columns, name)
        case Some(i) => i
        case None => |t.value.columns|;
    assert r.columns[j] == Column(name, [d]);
    var k := FieldIndex(r.columns, name);
    assert k.Some?;
    assert k.value == j;
  }

  /** Every other name reads as it did before the assignment. */
  lemma AssignedOthers<V>(t: Option<Table<V>>, name: string, d: ColumnData<V>, other: string)
    requires !LengthMismatch(t, d) && other != name
    ensures FromTable(other, Some(Assigned(t, name, d))) == FromTable(other, t)
  {
    var r := Assigned(t, name, d);
    AssignedShape(t, name, d);
    if t.Some? && |t.value.columns| != 0 {
      var cols := t.value.columns;
      match FieldIndex(cols, name)
      case Some(i) =>
        FieldIndexNames(r.columns, cols, other);
      case None =>
        FieldIndexAppend(cols, Column(name, [d]), other);
    } else {
      assert FieldIndex(r.columns, other).None?;
    }
  }

  /** The table variable a `ColumnProxy` refers to (`table_` is a reference
      to the data frame's `shared_ptr<Table>`, which may be null). */
  class TableHolder<V> {
    var table: Option<Table<V>>

    constructor (t: Option<Table<V>>)
      ensures table == t
    {
      table := t;
    }
  }

  class ColumnProxy<V> {
    const name: string
    var data: Option<ColumnData<V>>
    const holder: TableHolder<V>

    /** The `ConstColumnProxy` part. */
    function Base(): ConstProxy<V>
      reads this
    {
      ConstProxy(name, data)
    }

    constructor (base: ConstProxy<V>, holder: TableHolder<V>)
      ensures Base() == base && this.holder == holder
    {
      name, data := base.name, base.data;
      this.holder := holder;
    }

    /** `ColumnProxy(name, table)`: constructing the const part may raise. */
    static method Make(name: string, holder: TableHolder<V>) returns (r: Result<ColumnProxy<V>, string>)
      ensures r.Failure? <==> FromTable(name, holder.table).Failure?
      ensures r.Failure? ==> r.error == ChunkedError
      ensures r.Success? ==> fresh(r.value) && r.value.holder == holder
                             && r.value.Base() == FromTable(name, holder.table).value
    {
      match FromTable(name, holder.table)
      case Failure(e) =>
        r := Failure(e);
      case Success(base) =>
        var p := new ColumnProxy(base, holder);
        r := Success(p);
    }

    /** `operator=(const shared_ptr<Array> &)`. */
    method AssignArray(d: ColumnData<V>) returns (out: Outcome<string>)
      requires WF(d) && (holder.table.Some? ==> TableWF(holder.table.value))
      modifies this, holder
      ensures out.Fail? <==> LengthMismatch(old(holder.table), d)
      ensures out.Fail? ==> out.error == LengthError && data == old(data) && holder.table == old(holder.table)
      ensures out.Pass? ==> data == Some(d) && holder.table == Some(Assigned(old(holder.table), name, d))
      ensures holder.table.Some? ==> TableWF(holder.table.value)
    {
      var t := holder.table;
      if t.Some? && |t.value.columns| != 0 && t.value.numRows != d.length {
        return Fail(LengthError);
      }
      data := Some(d);
      AssignedWF(t, name, d);
      var col := Column(name, [d]);
      if t.None? || |t.value.columns| == 0 {
        holder.table := Some(Table(d.length, [col]));
        return Pass;
      }
      var index := FieldIndex(t.value.columns, name);
      if index.Some? {
        holder.table := Some(t.value.(columns := t.value.columns[index.value := col]));
      } else {
        holder.table := Some(t.value.(columns := t.value.columns + [col]));
      }
      out := Pass;
    }

    /** `operator=(const ConstColumnProxy &)`: assigns the other proxy's
        data, which must be present. */
    method AssignProxy(c: ConstProxy<V>) returns (out: Outcome<string>)
      requires c.data.Some? && WF(c.data.value)
      requires holder.table.Some? ==> TableWF(holder.table.value)
      modifies this, holder
      ensures out.Fail? <==> LengthMismatch(old(holder.table), c.data.value)
      ensures out.Pass? ==> data == c.data && holder.table == Some(Assigned(old(holder.table), name, c.data.value))
    {
      out := AssignArray(c.data.value);
    }

    /** `operator=(const T &)` for a scalar `v` whose array type id is `id`:
        raises on a missing or column-less table; otherwise fills a vector
        with `num_rows` copies and assigns the array made from it. */
    method AssignScalar(v: V, id: TypeId) returns (out: Outcome<string>)
      requires holder.table.Some? ==> TableWF(holder.table.value)
      modifies this, holder
      ensures old(holder.table).None? || |old(holder.table).value.columns| == 0 ==>
                out == Fail(ScalarError) && data == old(data) && holder.table == old(holder.table)
      ensures old(holder.table).Some? && |old(holder.table).value.columns| != 0 ==>
                var filled := Filled(v, id, old(holder.table).value.numRows);
                out == Pass && data == Some(filled)
                && holder.table == Some(Assigned(old(holder.table), name, filled))
    {
      var t := holder.table;
      if t.None? || |t.value.columns| == 0 {
        return Fail(ScalarError);
      }
      var n := t.value.numRows;
      var values: seq<V> := [];
      while |values| < n
        invariant |values| <= n
        invariant values == seq(|values|, _ => v)
      {
        values := values + [v];
      }
      out := AssignArray(ColumnData(id, 0, n, None, values));
    }
  }

  /** The array `make_array` builds from `n` copies of `v`. */
  function Filled<V>(v: V, id: TypeId, n: nat): (r: ColumnData<V>)
    ensures WF(r) && r.length == n
  {
    ColumnData(id, 0, n, None, seq(n, _ => v))
  }

  /** After a scalar assignment the column reads back as `num_rows` valid
      copies of the scalar. */
  lemma ScalarReadBack<V>(t: Table<V>, name: string, v: V, id: TypeId)
    requires TableWF(t) && |t.columns| != 0
    ensures !LengthMismatch(Some(t), Filled(v, id, t.numRows))
    ensures var r := FromTable(name, Some(Assigned(Some(t), name, Filled(v, id, t.numRows))));
            r.Success? && r.value.data.Some?
            && Contents(r.value.data.value) == seq(t.numRows, _ => Some(v))
  {
    var f := Filled(v, id, t.numRows);
    AssignedReadBack(Some(t), name, f);
    assert Contents(f) == seq(t.numRows, _ => Some(v));
  }
}
