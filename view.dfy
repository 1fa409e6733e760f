/** `ArrayView<T>` for an arithmetic `T` (include/dataframe/array/view.hpp):
    the values buffer of a primitive array and its length, read in place.

    The view holds a pointer and a size and never changes after
    construction, so it is modelled as a value holding the slots it points
    at. An iterator is a position in `[0, size]`. */
module PrimitiveView {
  import opened Wrappers
  import opened Arrays

  /** The message of the `std::out_of_range` that `at` throws. */
  const AtError := "dataframe::ArrayView::at"

  datatype View<T> = View(data: seq<T>)
  {
    function Size(): nat {
      |data|
    }

    predicate IsEmpty() {
      Size() == 0
    }

    /** `at(pos)`: bounds-checked read. */
    function At(pos: nat): (r: Result<T, string>)
      ensures r.Failure? <==> pos >= Size()
      ensures r.Failure? ==> r.error == AtError
      ensures r.Success? ==> r.value == data[pos]
    {
      if pos >= Size() then Failure(AtError) else Success(data[pos])
    }

    /** `operator[](pos)`: unchecked read; callers keep `pos` in range. */
    function Get(pos: nat): T
      requires pos < Size()
    {
      data[pos]
    }

    function Front(): T
      requires !IsEmpty()
    {
      Get(0)
    }

    function Back(): T
      requires !IsEmpty()
    {
      Get(Size() - 1)
    }

    /** `begin()` and `end()`. */
    function Begin(): nat { 0 }
    function End(): nat { Size() }

    /** Dereferencing the iterator at `it`. */
    function Deref(it: nat): T
      requires Begin() <= it < End()
    {
      Get(it)
    }

    /** Dereferencing the reverse iterator `k` steps after `rbegin()`: the
        element before base `end() - k`. */
    function ReverseDeref(k: nat): T
      requires k < End() - Begin()
    {
      Deref(End() - k - 1)
    }

    /** What iterating from `begin()` to `end()` visits. */
    function Forward(): (r: seq<T>)
      ensures |r| == End() - Begin()
    {
      seq(End() - Begin(), k requires 0 <= k < End() - Begin() => Deref(Begin() + k))
    }

    /** What iterating from `rbegin()` to `rend()` visits. */
    function Backward(): (r: seq<T>)
      ensures |r| == End() - Begin()
    {
      seq(End() - Begin(), k requires 0 <= k < End() - Begin() => ReverseDeref(k))
    }
  }

  /** The default constructor: no array, no data, size 0. */
  function Default<T>(): (v: View<T>)
    ensures v.Size() == 0 && v.IsEmpty()
    ensures forall pos: nat :: v.At(pos).Failure?
  {
    View([])
  }

  /** The view of a primitive array (after `cast_array`, which is not part
      of this model): its size is the array's length, and slot `i` reads the
      array's `i`-th value. */
  function FromArray<T>(a: Array<T>): (v: View<T>)
    requires a.PrimArray?
    ensures v.Size() == Length(a)
    ensures forall i :: 0 <= i < v.Size() ==> Elements(a)[i] == Atom(v.Get(i))
  {
    View(a.values)
  }

  /** The bounds-checked and the unchecked reads agree wherever `at`
      succeeds, and `front`/`back` are the first and last element. */
  lemma AtAgreesGet<T>(v: View<T>, pos: nat)
    ensures pos < v.Size() ==> v.At(pos) == Success(v.Get(pos))
    ensures !v.IsEmpty() ==> v.At(0) == Success(v.Front())
    ensures !v.IsEmpty() ==> v.At(v.Size() - 1) == Success(v.Back())
    ensures v.Size() == 1 ==> v.Front() == v.Back()
  {
  }

  function Reverse<T>(s: seq<T>): (r: seq<T>)
    ensures |r| == |s|
  {
    if s == [] then [] else Reverse(s[1..]) + [s[0]]
  }

  lemma {:induction false} ReverseAt<T>(s: seq<T>, k: nat)
    requires k < |s|
    ensures Reverse(s)[k] == s[|s| - 1 - k]
  {
    if k < |s| - 1 {
      ReverseAt(s[1..], k);
    }
  }

  /** `begin..end` visits exactly the `size` elements in order, and
      `rbegin..rend` visits them in reverse order. */
  lemma Traversal<T>(v: View<T>)
    ensures v.Forward() == v.data
    ensures v.Backward() == Reverse(v.data)
  {
    assert v.Forward() == v.data by {
      forall k | 0 <= k < v.Size() ensures v.Forward()[k] == v.data[k] {
        assert v.Forward()[k] == v.Deref(v.Begin() + k);
      }
    }
    forall k | 0 <= k < v.Size() ensures v.Backward()[k] == Reverse(v.data)[k] {
      ReverseAt(v.data, k);
    }
  }

  /** `set(first, set_field)`: for each slot `i` in increasing order, calls
      `set_field(data[i], first + i)`. The output is modelled as the array
      `out` starting at `first`, and `set_field` as the update it makes to
      the record its iterator points at. `calls` lists the arguments of the
      calls in the order they are made. */
  method Set<T, R>(v: View<T>, out: array<R>, first: nat, setField: (T, R) -> R)
    returns (calls: seq<(T, nat)>)
    requires first + v.Size() <= out.Length
    modifies out
    ensures calls == seq(v.Size(), i requires 0 <= i < v.Size() => (v.data[i], first + i))
    ensures forall i :: 0 <= i < v.Size() ==> out[first + i] == setField(v.data[i], old(out[first + i]))
    ensures forall j :: 0 <= j < out.Length && !(first <= j < first + v.Size()) ==> out[j] == old(out[j])
  {
    calls := [];
    var i := 0;
    while i != v.Size()
      invariant 0 <= i <= v.Size()
      invariant calls == seq(i, k requires 0 <= k < i => (v.data[k], first + k))
      invariant forall k :: 0 <= k < i ==> out[first + k] == setField(v.data[k], old(out[first + k]))
      invariant forall j :: 0 <= j < out.Length && !(first <= j < first + i) ==> out[j] == old(out[j])
    {
      out[first + i] := setField(v.Get(i), out[first + i]);
      calls := calls + [(v.Get(i), first + i)];
      i := i + 1;
    }
  }
}
