/** `ArrayView<Dict<T, Index, Ordered>>`
    (cpp/include/dataframe/array/view/dict.hpp): a dictionary-encoded array
    read through a view of its indices and a view of its dictionary.

    Slot `pos` is null when the array's validity bitmap says so; a valid slot
    holds `dictionary[indices[pos]]`. A null slot reads `null_`, the
    value-initialised `T`. An iterator is a position in `[0, size]`. */
module DictionaryView {
  import opened Wrappers
  import opened PrimitiveView

  /** `2^64`: `size_t` values are taken modulo this. */
  const SizeModulus: nat := 0x1_0000_0000_0000_0000

  /** `2^63`: signed 64-bit values lie in `[-2^63, 2^63)`, and so do Arrow
      lengths. */
  const Int64Bound: nat := 0x8000_0000_0000_0000

  /** `static_cast<size_type>(i)` for a signed index `i`. */
  function AsSize(i: int): (r: nat)
    ensures r < SizeModulus
    ensures 0 <= i < SizeModulus ==> r == i
    ensures -(Int64Bound as int) <= i < 0 ==> r >= Int64Bound
  {
    i % SizeModulus
  }

  datatype DictView<T> = DictView(
    /** The array's validity bitmap, one entry per slot; `None` when it has
        no bitmap, in which case every slot is valid. */
    validity: Option<seq<bool>>,
    indices: View<int>,
    dictionary: View<T>,
    /** `null_`, which the source always value-initialises (`T{}`). It is
        left free here, so every property below holds for any value of it,
        `T{}` included. */
    nullValue: T)
  {
    /** What every dictionary array satisfies: the bitmap covers the slots,
        the indices are signed 64-bit values at most, and the dictionary's
        length is an `int64_t`. */
    predicate Valid() {
      && (validity.Some? ==> |validity.value| == indices.Size())
      && (forall i :: 0 <= i < indices.Size() ==>
            -(Int64Bound as int) <= indices.data[i] < Int64Bound)
      && dictionary.Size() < Int64Bound
    }

    /** `size()`: the length of the dictionary-encoded array, which its
        indices share. */
    function Size(): nat {
      indices.Size()
    }

    predicate IsEmpty() {
      Size() == 0
    }

    /** `data_->IsValid(pos)`. With a bitmap, reading past the slots is out
        of bounds, so `pos` must be in range. */
    predicate IsValid(pos: nat)
      requires validity.None? || pos < |validity.value|
    {
      validity.None? || validity.value[pos]
    }

    /** A valid slot's index points into the dictionary. */
    predicate Resolves(pos: nat)
      requires pos < Size()
    {
      0 <= indices.Get(pos) < dictionary.Size()
    }

    /** `operator[](pos)`: unchecked read. */
    function Get(pos: nat): T
      requires Valid() && pos < Size()
      requires IsValid(pos) ==> Resolves(pos)
    {
      if IsValid(pos) then dictionary.Get(indices.Get(pos)) else nullValue
    }

    /** `at(pos)`: the validity test is unchecked; the index read and the
        dictionary read are checked by the two inner views' `at`. */
    function At(pos: nat): (r: Result<T, string>)
      requires Valid() && (validity.None? || pos < Size())
    {
      if !IsValid(pos) then Success(nullValue)
      else match indices.At(pos)
        case Failure(e) => Failure(e)
        case Success(i) => dictionary.At(AsSize(i))
    }

    function Front(): T
      requires Valid() && !IsEmpty() && (IsValid(0) ==> Resolves(0))
    {
      Get(0)
    }

    function Back(): T
      requires Valid() && !IsEmpty() && (IsValid(Size() - 1) ==> Resolves(Size() - 1))
    {
      Get(Size() - 1)
    }

    /** Every valid slot's index points into the dictionary. */
    predicate AllResolve()
      requires Valid()
    {
      forall pos :: 0 <= pos < Size() && IsValid(pos) ==> Resolves(pos)
    }

    /** `begin()` and `end()`. */
    function Begin(): nat { 0 }
    function End(): nat { Size() }

    /** `*it` for the iterator at position `it`. */
    function Deref(it: nat): T
      requires Valid() && AllResolve() && Begin() <= it < End()
    {
      Get(it)
    }

    /** What iterating from `begin()` to `end()` visits. */
    function Forward(): (r: seq<T>)
      requires Valid() && AllResolve()
      ensures |r| == End() - Begin()
    {
      seq(End() - Begin(), k requires 0 <= k < End() - Begin() => Deref(Begin() + k))
    }

    /** Dereferencing the reverse iterator `k` steps after `rbegin()`: the
        slot before base `end() - k`. */
    function ReverseDeref(k: nat): T
      requires Valid() && AllResolve() && k < End() - Begin()
    {
      Deref(End() - k - 1)
    }

    /** What iterating from `rbegin()` to `rend()` visits. */
    function Backward(): (r: seq<T>)
      requires Valid() && AllResolve()
      ensures |r| == End() - Begin()
    {
      seq(End() - Begin(), k requires 0 <= k < End() - Begin() => ReverseDeref(k))
    }
  }

  /** A valid slot reads the dictionary entry its index names; a null slot
      reads `null_` whatever its index, even with an empty dictionary. */
  lemma GetSlot<T>(v: DictView<T>, pos: nat)
    requires v.Valid() && pos < v.Size()
    ensures v.IsValid(pos) && v.Resolves(pos) ==> v.Get(pos) == v.dictionary.data[v.indices.data[pos]]
    ensures !v.IsValid(pos) ==> v.Get(pos) == v.nullValue
  {
  }

  /** `at` on a valid slot fails exactly when `pos` is past the indices or
      the stored index (as a `size_t`, so a negative one is huge) is past the
      dictionary; when it succeeds it agrees with `operator[]`. */
  lemma AtSpec<T>(v: DictView<T>, pos: nat)
    requires v.Valid() && (v.validity.None? || pos < v.Size())
    ensures v.At(pos).Failure? <==>
              v.IsValid(pos) && (pos >= v.Size() || !v.Resolves(pos))
    ensures v.At(pos).Success? ==>
              pos < v.Size() && (v.IsValid(pos) ==> v.Resolves(pos))
              && v.At(pos).value == v.Get(pos)
  {
    if v.IsValid(pos) && pos < v.Size() {
      var i := v.indices.data[pos];
      assert v.indices.At(pos) == Success(i);
      if i < 0 {
        assert AsSize(i) >= Int64Bound > v.dictionary.Size();
      }
    }
  }

  /** `size()` is the number of slots, `empty()` holds exactly when there
      are none, and `front`/`back` read slots `0` and `size - 1`. */
  lemma SizeAndEnds<T>(v: DictView<T>)
    requires v.Valid() && v.AllResolve()
    ensures v.IsEmpty() <==> v.Size() == 0
    ensures v.End() - v.Begin() == v.Size()
    ensures !v.IsEmpty() ==> v.Front() == v.Forward()[0] && v.Back() == v.Forward()[v.Size() - 1]
  {
    if !v.IsEmpty() {
      assert v.Forward()[0] == v.Deref(0);
      assert v.Forward()[v.Size() - 1] == v.Deref(v.Size() - 1);
    }
  }

  /** The decoded slots, defined without the view: a null slot is
      `nullValue`, a valid one the dictionary entry its index names. */
  function Decode<T>(valid: seq<bool>, idx: seq<int>, dict: seq<T>, nullValue: T): (r: seq<T>)
    requires |valid| == |idx|
    requires forall i :: 0 <= i < |idx| && valid[i] ==> 0 <= idx[i] < |dict|
    ensures |r| == |idx|
  {
    if idx == [] then []
    else [if valid[0] then dict[idx[0]] else nullValue]
         + Decode(valid[1..], idx[1..], dict, nullValue)
  }

  function ValidityBits<T>(v: DictView<T>): (r: seq<bool>)
    requires v.Valid()
    ensures |r| == v.Size()
    ensures forall i :: 0 <= i < |r| ==> r[i] == v.IsValid(i)
    ensures v.AllResolve() ==>
              forall i :: 0 <= i < |r| && r[i] ==> 0 <= v.indices.data[i] < v.dictionary.Size()
  {
    if v.validity.Some? then v.validity.value else seq(v.Size(), _ => true)
  }

  lemma {:induction false} DecodeAt<T>(valid: seq<bool>, idx: seq<int>, dict: seq<T>, nullValue: T, k: nat)
    requires |valid| == |idx|
    requires forall i :: 0 <= i < |idx| && valid[i] ==> 0 <= idx[i] < |dict|
    requires k < |idx|
    ensures Decode(valid, idx, dict, nullValue)[k] == if valid[k] then dict[idx[k]] else nullValue
  {
    if k > 0 {
      DecodeAt(valid[1..], idx[1..], dict, nullValue, k - 1);
    }
  }

  /** Iterating from `begin()` to `end()` visits exactly `size` slots, and
      slot `k` is the decoded value of slot `k`; iterating from `rbegin()`
      to `rend()` visits the same slots in reverse order. */
  lemma Traversal<T>(v: DictView<T>)
    requires v.Valid() && v.AllResolve()
    ensures v.Forward() == Decode(ValidityBits(v), v.indices.data, v.dictionary.data, v.nullValue)
    ensures v.Backward() == Reverse(v.Forward())
  {
    var bits := ValidityBits(v);
    forall k | 0 <= k < v.Size()
      ensures v.Forward()[k] == Decode(bits, v.indices.data, v.dictionary.data, v.nullValue)[k]
    {
      assert v.Forward()[k] == v.Deref(k);
      DecodeAt(bits, v.indices.data, v.dictionary.data, v.nullValue, k);
    }
    forall k | 0 <= k < v.Size() ensures v.Backward()[k] == Reverse(v.Forward())[k] {
      assert v.Backward()[k] == v.Deref(v.Size() - 1 - k);
      ReverseAt(v.Forward(), k);
    }
  }

  /** `set(out, setter)`: for each slot `i` in increasing order, calls
      `setter(operator[](i), out)` and advances `out`; returns the advanced
      output position `first + size`. The output is modelled as the array
      `out` starting at `first`, the setter as the update it makes to the
      record its iterator points at, and `calls` lists the arguments of the
      calls in order. */
  method Set<T, R>(v: DictView<T>, out: array<R>, first: nat, setter: (T, R) -> R)
    returns (last: nat, calls: seq<(T, nat)>)
    requires v.Valid() && v.AllResolve()
    requires first + v.Size() <= out.Length
    modifies out
    ensures last == first + v.Size()
    ensures calls == seq(v.Size(), i requires 0 <= i < v.Size() => (v.Get(i), first + i))
    ensures forall i :: 0 <= i < v.Size() ==> out[first + i] == setter(v.Get(i), old(out[first + i]))
    ensures forall j :: 0 <= j < out.Length && !(first <= j < last) ==> out[j] == old(out[j])
  {
    calls := [];
    last := first;
    var i := 0;
    while i != v.Size()
      invariant 0 <= i <= v.Size() && last == first + i
      invariant calls == seq(i, k requires 0 <= k < i => (v.Get(k), first + k))
      invariant forall k :: 0 <= k < i ==> out[first + k] == setter(v.Get(k), old(out[first + k]))
      invariant forall j :: 0 <= j < out.Length && !(first <= j < last) ==> out[j] == old(out[j])
    {
      var x := v.Get(i);
      out[last] := setter(x, out[last]);
      calls := calls + [(x, last)];
      i, last := i + 1, last + 1;
    }
  }
}
