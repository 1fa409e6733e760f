/** Runtime arrays as the bind engine sees them, and their logical contents.

    An `Array` is the part of an `arrow::Array` that `bind_array` reads: its
    type, its length, the values of a primitive array, the offsets and child of
    a list array, and the children of a struct array. Validity bitmaps are not
    part of it: bind neither reads nor writes them.

    `Elements` maps an array to the sequence of logical values in its slots;
    two arrays are logically equal (`arrow::Array::Equals`) when they have the
    same type and the same `Elements`. */
module Arrays {
  import opened ArrowTypes
  import opened Offsets

  datatype Array<V> =
    | NullArray(length: nat)
    | PrimArray(tag: PrimTag, values: seq<V>)
      /** `offsets` are the raw value offsets `p[0..n]` of an `n`-slot list;
          after slicing, `p[0]` need not be 0. */
    | ListArray(elem: LogicalType, offsets: seq<int>, child: Array<V>)
    | StructArray(fields: seq<Field>, length: nat, children: seq<Array<V>>)
      /** A dictionary, union, interval or map array: a type for which the
          bind visitor has no case. Only its type and length are modelled. */
    | OtherArray(ty: LogicalType, length: nat)

  /** The logical value in one slot of an array. */
  datatype Value<V> =
    | NullValue
    | Atom(v: V)
    | ListValue(items: seq<Value<V>>)
    | StructValue(members: seq<Value<V>>)
    | OpaqueValue

  predicate IsOtherType(t: LogicalType) {
    t.DictionaryType? || t.UnionType? || t.IntervalType? || t.MapType?
  }

  function TypeOf<V>(a: Array<V>): LogicalType {
    match a
    case NullArray(_) => NullType
    case PrimArray(tag, _) => PrimType(tag)
    case ListArray(elem, _, _) => ListType(elem)
    case StructArray(fields, _, _) => StructType(fields)
    case OtherArray(ty, _) => ty
  }

  function Length<V>(a: Array<V>): nat {
    match a
    case NullArray(n) => n
    case PrimArray(_, vs) => |vs|
    case ListArray(_, p, _) => if |p| == 0 then 0 else |p| - 1
    case StructArray(_, n, _) => n
    case OtherArray(_, n) => n
  }

  /** Offsets `os` delimit `|os| - 1` consecutive, non-decreasing spans inside
      a child of length `n`. */
  predicate OffsetsWithin(os: seq<int>, n: int) {
    && |os| >= 1
    && 0 <= os[0]
    && os[|os| - 1] <= n
    && Monotone(os)
  }

  /** The structural invariant every Arrow array satisfies. */
  predicate WellFormed<V>(a: Array<V>) {
    match a
    case NullArray(_) => true
    case PrimArray(_, _) => true
    case ListArray(elem, p, child) =>
      && WellFormed(child)
      && TypeOf(child) == elem
      && OffsetsWithin(p, Length(child))
    case StructArray(fields, n, children) =>
      && |children| == |fields|
      && forall j :: 0 <= j < |children| ==>
           && WellFormed(children[j])
           && TypeOf(children[j]) == fields[j].ty
           && Length(children[j]) == n
    case OtherArray(ty, _) => IsOtherType(ty)
  }

  predicate AllWellFormed<V>(chunks: seq<Array<V>>) {
    forall i :: 0 <= i < |chunks| ==> WellFormed(chunks[i])
  }

  /** The list slots delimited by `os` over the child contents `e`. */
  function ListSlots<V>(os: seq<int>, e: seq<Value<V>>): (r: seq<Value<V>>)
    requires OffsetsWithin(os, |e|)
    ensures |r| == |os| - 1
  {
    seq(|os| - 1, i requires 0 <= i < |os| - 1 => ListValue(e[os[i]..os[i + 1]]))
  }

  /** Struct rows: row `i` gathers entry `i` of every column. */
  function Rows<V>(cols: seq<seq<Value<V>>>, n: nat): (r: seq<Value<V>>)
    requires forall j :: 0 <= j < |cols| ==> |cols[j]| == n
    ensures |r| == n
  {
    seq(n, i requires 0 <= i < n =>
      StructValue(seq(|cols|, j requires 0 <= j < |cols| => cols[j][i])))
  }

  /** The logical contents of an array, slot by slot. */
  function Elements<V>(a: Array<V>): (r: seq<Value<V>>)
    requires WellFormed(a)
    ensures |r| == Length(a)
  {
    match a
    case NullArray(n) => seq(n, _ => NullValue)
    case PrimArray(_, vs) => seq(|vs|, i requires 0 <= i < |vs| => Atom(vs[i]))
    case ListArray(_, p, child) => ListSlots(p, Elements(child))
    case StructArray(_, n, children) => Rows(ColumnsOf(children, n), n)
    case OtherArray(_, n) => seq(n, _ => OpaqueValue)
  }

  function ColumnsOf<V>(children: seq<Array<V>>, n: nat): (r: seq<seq<Value<V>>>)
    requires forall j :: 0 <= j < |children| ==> WellFormed(children[j]) && Length(children[j]) == n
    ensures |r| == |children|
    ensures forall j :: 0 <= j < |r| ==> |r[j]| == n
  {
    seq(|children|, j requires 0 <= j < |children| => Elements(children[j]))
  }

  /** `arrow::Array::Slice(off, len)`: a view of `len` slots starting at `off`.
      A list keeps its child and narrows its offsets; a struct slices each
      field. */
  function Slice<V>(a: Array<V>, off: nat, len: nat): (r: Array<V>)
    requires WellFormed(a) && off + len <= Length(a)
    ensures WellFormed(r) && TypeOf(r) == TypeOf(a) && Length(r) == len
  {
    match a
    case NullArray(_) => NullArray(len)
    case PrimArray(tag, vs) => PrimArray(tag, vs[off..off + len])
    case ListArray(elem, p, child) =>
      var q := p[off..off + len + 1];
      assert forall i, j :: 0 <= i <= j < |q| ==> q[i] == p[off + i] && q[j] == p[off + j];
      ListArray(elem, q, child)
    case StructArray(fields, _, children) =>
      StructArray(fields, len, seq(|children|, j requires 0 <= j < |children| => Slice(children[j], off, len)))
    case OtherArray(ty, _) => OtherArray(ty, len)
  }

  /** Slicing selects exactly the corresponding slots of the logical contents. */
  lemma {:induction false} SliceElements<V>(a: Array<V>, off: nat, len: nat)
    requires WellFormed(a) && off + len <= Length(a)
    ensures Elements(Slice(a, off, len)) == Elements(a)[off..off + len]
  {
    match a
    case NullArray(_) =>
    case PrimArray(_, _) =>
    case ListArray(_, p, child) =>
    case OtherArray(_, _) =>
    case StructArray(fields, n, children) =>
      var sliced := seq(|children|, j requires 0 <= j < |children| => Slice(children[j], off, len));
      forall j | 0 <= j < |children|
        ensures Elements(sliced[j]) == Elements(children[j])[off..off + len]
      {
        SliceElements(children[j], off, len);
      }
      var cols, whole := ColumnsOf(sliced, len), ColumnsOf(children, n);
      assert Slice(a, off, len) == StructArray(fields, len, sliced);
      forall i | 0 <= i < len
        ensures Rows(cols, len)[i] == Rows(whole, n)[off + i]
      {
        assert forall j :: 0 <= j < |cols| ==> cols[j][i] == whole[j][off + i];
      }
  }

  /** Slicing the whole array gives the array back. */
  lemma {:induction false} SliceWhole<V>(a: Array<V>)
    requires WellFormed(a)
    ensures Slice(a, 0, Length(a)) == a
  {
    match a
    case NullArray(_) =>
    case PrimArray(_, vs) =>
      assert vs[0..|vs|] == vs;
    case ListArray(_, p, _) =>
      assert p[0..|p|] == p;
    case OtherArray(_, _) =>
    case StructArray(fields, n, children) =>
      var sliced := seq(|children|, j requires 0 <= j < |children| => Slice(children[j], 0, n));
      forall j | 0 <= j < |children| ensures sliced[j] == children[j] {
        SliceWhole(children[j]);
      }
      assert sliced == children;
  }

  /** The chunks' slots one after another: the contents bind must produce. */
  function ConcatElements<V>(chunks: seq<Array<V>>): (r: seq<Value<V>>)
    requires AllWellFormed(chunks)
    ensures |r| == TotalLength(chunks)
  {
    if chunks == [] then [] else Elements(chunks[0]) + ConcatElements(chunks[1..])
  }

  /** The sum of the chunk lengths. */
  function TotalLength<V>(chunks: seq<Array<V>>): nat {
    if chunks == [] then 0 else Length(chunks[0]) + TotalLength(chunks[1..])
  }

  lemma {:induction false} TotalLengthAppend<V>(chunks: seq<Array<V>>, c: Array<V>)
    ensures TotalLength(chunks + [c]) == TotalLength(chunks) + Length(c)
  {
    if chunks == [] {
      assert [c][1..] == [];
    } else {
      assert (chunks + [c])[1..] == chunks[1..] + [c];
      TotalLengthAppend(chunks[1..], c);
    }
  }
}
