/** `ArrayMaker<List<T>>::append` (cpp/include/dataframe/array/make/list.hpp):
    appends a range of containers to an Arrow list builder, one list slot per
    container, forwarding each container's elements to the list's value
    builder through `ArrayMaker<T>::append`.

    A builder is modelled by the state it accumulates. A list builder owns its
    value builder, so the value builder's state is part of the list builder's
    state, and appending to it in place is modelled by replacing that part.
    A list builder records where each slot starts in its value builder and
    whether the slot is valid; slot `i` ends where slot `i + 1` starts, the
    last one at the value builder's current length. */
module ListMaker {
  import opened Wrappers
  import opened ArrowTypes
  import opened Offsets

  /** The message of the `DataFrameException` raised when the value builder
      has the wrong class. */
  const NullValueBuilder := "Null value builder"

  /** The C++ element type: a primitive, or `List<T>` of an element type. */
  datatype ElemType = PrimElem(tag: PrimTag) | ListElem(elem: ElemType)

  /** A value read back from a builder, or given to one: an input container
      of `List<T>` is `Items`, an input primitive is `Scalar`; `Null` only
      appears when reading back a slot that was appended as null. */
  datatype Datum<V> = Null | Scalar(v: V) | Items(items: seq<Datum<V>>)

  /** Input data of C++ type `t`. */
  predicate Conforms<V>(d: Datum<V>, t: ElemType)
    decreases t
  {
    match t
    case PrimElem(_) => d.Scalar?
    case ListElem(e) => d.Items? && forall j :: 0 <= j < |d.items| ==> Conforms(d.items[j], e)
  }

  predicate AllConform<V>(ds: seq<Datum<V>>, t: ElemType) {
    forall j :: 0 <= j < |ds| ==> Conforms(ds[j], t)
  }

  datatype BuilderState<V> =
    | PrimState(tag: PrimTag, values: seq<V>)
      /** `starts[i]`: where slot `i` starts in the value builder. */
    | ListState(starts: seq<int>, validity: seq<bool>, child: BuilderState<V>)

  /** The builder's `length()`: the number of slots appended so far. */
  function Len<V>(s: BuilderState<V>): nat {
    match s
    case PrimState(_, vs) => |vs|
    case ListState(os, _, _) => |os|
  }

  /** Slot starts never decrease and lie inside the value builder. */
  predicate Bounded(os: seq<int>, n: int) {
    Monotone(os) && forall i :: 0 <= i < |os| ==> 0 <= os[i] <= n
  }

  predicate WF<V>(s: BuilderState<V>) {
    match s
    case PrimState(_, _) => true
    case ListState(os, vs, c) => |vs| == |os| && WF(c) && Bounded(os, Len(c))
  }

  /** Where slot `i` ends: the next slot's start, or `n` for the last. */
  function SlotEnd(os: seq<int>, i: nat, n: int): int
    requires i < |os|
  {
    if i + 1 < |os| then os[i + 1] else n
  }

  /** The slots a builder holds, read back as values. */
  function Slots<V>(s: BuilderState<V>): (r: seq<Datum<V>>)
    requires WF(s)
    ensures |r| == Len(s)
  {
    match s
    case PrimState(_, vs) => seq(|vs|, i requires 0 <= i < |vs| => Scalar(vs[i]))
    case ListState(os, valid, c) =>
      var cs := Slots(c);
      seq(|os|, i requires 0 <= i < |os| =>
        if valid[i] then Items(cs[os[i]..SlotEnd(os, i, |cs|)]) else Null)
  }

  /** `dynamic_cast<BuilderType<T> *>(builder->value_builder())` succeeds:
      a primitive element needs the builder class of its Arrow type (the
      class does not depend on a time unit, width or precision), a nested
      list needs any list builder. */
  predicate Matches<V>(s: BuilderState<V>, t: ElemType) {
    match t
    case PrimElem(tag) => s.PrimState? && Id(PrimType(s.tag)) == Id(PrimType(tag))
    case ListElem(_) => s.ListState?
  }

  /** The elements of a container of a primitive type are scalars. */
  lemma ItemsScalar<V>(item: Datum<V>, elem: ElemType)
    requires elem.PrimElem? && Conforms(item, ListElem(elem))
    ensures forall j :: 0 <= j < |item.items| ==> item.items[j].Scalar?
  {
    forall j | 0 <= j < |item.items| ensures item.items[j].Scalar? {
      assert Conforms(item.items[j], elem);
    }
  }

  function ScalarValues<V>(ds: seq<Datum<V>>): (r: seq<V>)
    requires forall j :: 0 <= j < |ds| ==> ds[j].Scalar?
    ensures |r| == |ds|
    ensures forall j :: 0 <= j < |ds| ==> ds[j] == Scalar(r[j])
  {
    seq(|ds|, j requires 0 <= j < |ds| => ds[j].v)
  }

  // ---------------------------------------------------------------------
  // What append does

  /** `ArrayMaker<List<T>>::append(builder, items)` on a list builder `s`,
      where `T` is `elem`: the new state and whether it raised. */
  function AppendSpec<V>(s: BuilderState<V>, elem: ElemType, items: seq<Datum<V>>)
    : (r: (BuilderState<V>, Outcome<string>))
    requires WF(s) && s.ListState? && AllConform(items, ListElem(elem))
    ensures WF(r.0) && r.0.ListState? && Len(r.0) >= Len(s)
    decreases elem, |items|, 2
  {
    if !Matches(s.child, elem) then (s, Fail(NullValueBuilder))
    else AppendFold(s, elem, items)
  }

  /** The loop over the containers, once the value builder has passed the
      class check; it stops at the first failure. */
  function AppendFold<V>(s: BuilderState<V>, elem: ElemType, items: seq<Datum<V>>)
    : (r: (BuilderState<V>, Outcome<string>))
    requires WF(s) && s.ListState? && Matches(s.child, elem) && AllConform(items, ListElem(elem))
    ensures WF(r.0) && r.0.ListState? && Len(r.0) >= Len(s)
    ensures r.1.Pass? ==> Matches(r.0.child, elem)
    decreases elem, |items|, 1
  {
    if items == [] then (s, Pass)
    else
      var p := AppendFold(s, elem, items[..|items| - 1]);
      if p.1.Fail? then p else AppendOne(p.0, elem, items[|items| - 1])
  }

  /** One turn of the loop: `builder->Append(true)` opens a valid slot at
      the value builder's current length, then the container's elements go
      to the value builder. */
  function AppendOne<V>(t: BuilderState<V>, elem: ElemType, item: Datum<V>)
    : (r: (BuilderState<V>, Outcome<string>))
    requires WF(t) && t.ListState? && Matches(t.child, elem) && Conforms(item, ListElem(elem))
    ensures WF(r.0) && r.0.ListState? && Len(r.0) == Len(t) + 1
    ensures r.1.Pass? ==> Matches(r.0.child, elem)
    decreases elem, 0, 0
  {
    var slotted := ListState(t.starts + [Len(t.child)], t.validity + [true], t.child);
    match elem
    case PrimElem(_) =>
      ItemsScalar(item, elem);
      (slotted.(child := PrimState(t.child.tag, t.child.values + ScalarValues(item.items))), Pass)
    case ListElem(e) =>
      var c := AppendSpec(t.child, e, item.items);
      (slotted.(child := c.0), c.1)
  }

  // ---------------------------------------------------------------------
  // The algorithm

  /** The append loop. A nested list's elements are appended by the same
      routine, one level down. */
  method Append<V>(s: BuilderState<V>, elem: ElemType, items: seq<Datum<V>>)
    returns (s': BuilderState<V>, out: Outcome<string>)
    requires WF(s) && s.ListState? && AllConform(items, ListElem(elem))
    ensures (s', out) == AppendSpec(s, elem, items)
    decreases elem, |items|, 2
  {
    if !Matches(s.child, elem) {
      return s, Fail(NullValueBuilder);
    }
    s', out := s, Pass;
    var i := 0;
    while i < |items|
      invariant 0 <= i <= |items|
      invariant AppendFold(s, elem, items[..i]) == (s', Pass)
    {
      assert items[..i + 1][..i] == items[..i];
      var o;
      s', o := AppendItem(s', elem, items[i]);
      if o.Fail? {
        FailureStops(s, elem, items, i + 1);
        return s', o;
      }
      i := i + 1;
    }
    assert items[..i] == items;
  }

  /** Once a turn fails, the loop's result is that of the failing turn. */
  lemma {:induction false} FailureStops<V>(s: BuilderState<V>, elem: ElemType, items: seq<Datum<V>>, k: nat)
    requires WF(s) && s.ListState? && Matches(s.child, elem) && AllConform(items, ListElem(elem))
    requires k <= |items| && AppendFold(s, elem, items[..k]).1.Fail?
    ensures AppendFold(s, elem, items) == AppendFold(s, elem, items[..k])
    decreases |items|
  {
    if k < |items| {
      var init := items[..|items| - 1];
      assert init[..k] == items[..k];
      FailureStops(s, elem, init, k);
    } else {
      assert items[..k] == items;
    }
  }

  /** One turn of the loop. */
  method AppendItem<V>(t: BuilderState<V>, elem: ElemType, item: Datum<V>)
    returns (t': BuilderState<V>, out: Outcome<string>)
    requires WF(t) && t.ListState? && Matches(t.child, elem) && Conforms(item, ListElem(elem))
    ensures (t', out) == AppendOne(t, elem, item)
    decreases elem, 0, 0
  {
    // builder->Append(true)
    t' := ListState(t.starts + [Len(t.child)], t.validity + [true], t.child);
    match elem {
      case PrimElem(_) =>
        ItemsScalar(item, elem);
        t' := t'.(child := PrimState(t.child.tag, t.child.values + ScalarValues(item.items)));
        out := Pass;
      case ListElem(e) =>
        var c;
        c, out := Append(t.child, e, item.items);
        t' := t'.(child := c);
    }
  }

  /** The list builder object `append` receives a pointer to. */
  class ListBuilder<V> {
    var starts: seq<int>
    var validity: seq<bool>
    var valueBuilder: BuilderState<V>

    function State(): BuilderState<V>
      reads this
    {
      ListState(starts, validity, valueBuilder)
    }

    /** An empty list builder over the given value builder. */
    constructor (valueBuilder: BuilderState<V>)
      requires WF(valueBuilder)
      ensures State() == ListState([], [], valueBuilder) && WF(State())
    {
      starts, validity := [], [];
      this.valueBuilder := valueBuilder;
    }

    method AppendRange(elem: ElemType, items: seq<Datum<V>>) returns (out: Outcome<string>)
      requires WF(State()) && AllConform(items, ListElem(elem))
      modifies this
      ensures (State(), out) == AppendSpec(old(State()), elem, items)
      ensures WF(State())
    {
      var s';
      s', out := Append(State(), elem, items);
      starts, validity, valueBuilder := s'.starts, s'.validity, s'.child;
    }
  }

  // ---------------------------------------------------------------------
  // Properties

  /** A value builder of the wrong class raises before anything is
      appended; so does an empty range on such a builder. */
  lemma MismatchUnchanged<V>(s: BuilderState<V>, elem: ElemType, items: seq<Datum<V>>)
    requires WF(s) && s.ListState? && AllConform(items, ListElem(elem))
    requires !Matches(s.child, elem)
    ensures AppendSpec(s, elem, items) == (s, Fail(NullValueBuilder))
  {
  }

  /** Appending to a primitive value builder adds the scalars after the
      slots it holds. */
  lemma PrimAppendSlots<V>(tag: PrimTag, vs: seq<V>, xs: seq<Datum<V>>)
    requires forall j :: 0 <= j < |xs| ==> xs[j].Scalar?
    ensures Slots(PrimState(tag, vs + ScalarValues(xs))) == Slots(PrimState(tag, vs)) + xs
  {
    var a := Slots(PrimState(tag, vs + ScalarValues(xs)));
    var b := Slots(PrimState(tag, vs)) + xs;
    forall k | 0 <= k < |a| ensures a[k] == b[k] {
      if k >= |vs| {
        assert a[k] == Scalar(ScalarValues(xs)[k - |vs|]);
      }
    }
  }

  /** Opening a valid slot at the value builder's end and then growing the
      value builder by `xs` adds one slot holding `xs`, and leaves every
      earlier slot as it was. */
  lemma OpenSlotSlots<V>(t: BuilderState<V>, c': BuilderState<V>, xs: seq<Datum<V>>)
    requires WF(t) && t.ListState? && WF(c') && Slots(c') == Slots(t.child) + xs
    ensures WF(ListState(t.starts + [Len(t.child)], t.validity + [true], c'))
    ensures Slots(ListState(t.starts + [Len(t.child)], t.validity + [true], c'))
            == Slots(t) + [Items(xs)]
  {
    var os, n := t.starts, Len(t.child);
    var os' := os + [n];
    var s' := ListState(os', t.validity + [true], c');
    assert Bounded(os', Len(c')) by {
      assert Len(c') == n + |xs|;
      forall i, j | 0 <= i <= j < |os'| ensures os'[i] <= os'[j] {
        if j < |os| {
          assert os'[i] == os[i] && os'[j] == os[j];
        }
      }
    }
    var cs, cs' := Slots(t.child), Slots(c');
    var a, b := Slots(s'), Slots(t) + [Items(xs)];
    forall i | 0 <= i < |a| ensures a[i] == b[i] {
      if i < |os| {
        var lo, hi := os[i], SlotEnd(os, i, |cs|);
        assert SlotEnd(os', i, |cs'|) == hi;
        assert lo <= hi <= |cs|;
        assert cs'[lo..hi] == cs[lo..hi];
      } else {
        assert cs'[n..|cs'|] == xs;
      }
    }
  }

  /** On success, the builder reads back as its old slots followed by the
      appended containers: one valid slot per container, in order, holding
      the container's elements. */
  lemma {:induction false} AppendSlots<V>(s: BuilderState<V>, elem: ElemType, items: seq<Datum<V>>)
    requires WF(s) && s.ListState? && AllConform(items, ListElem(elem))
    ensures AppendSpec(s, elem, items).1.Pass? ==>
              Slots(AppendSpec(s, elem, items).0) == Slots(s) + items
    decreases elem, |items|, 2
  {
    if Matches(s.child, elem) {
      FoldSlots(s, elem, items);
    }
  }

  lemma {:induction false} FoldSlots<V>(s: BuilderState<V>, elem: ElemType, items: seq<Datum<V>>)
    requires WF(s) && s.ListState? && Matches(s.child, elem) && AllConform(items, ListElem(elem))
    ensures AppendFold(s, elem, items).1.Pass? ==>
              Slots(AppendFold(s, elem, items).0) == Slots(s) + items
    decreases elem, |items|, 1
  {
    if items != [] {
      var init := items[..|items| - 1];
      var p := AppendFold(s, elem, init);
      FoldSlots(s, elem, init);
      if p.1.Pass? {
        OneSlots(p.0, elem, items[|items| - 1]);
        assert init + [items[|items| - 1]] == items;
      }
    }
  }

  lemma {:induction false} OneSlots<V>(t: BuilderState<V>, elem: ElemType, item: Datum<V>)
    requires WF(t) && t.ListState? && Matches(t.child, elem) && Conforms(item, ListElem(elem))
    ensures AppendOne(t, elem, item).1.Pass? ==>
              Slots(AppendOne(t, elem, item).0) == Slots(t) + [item]
    decreases elem, 0, 0
  {
    var r := AppendOne(t, elem, item);
    if r.1.Pass? {
      match elem
      case PrimElem(_) =>
        PrimAppendSlots(t.child.tag, t.child.values, item.items);
        OpenSlotSlots(t, r.0.child, item.items);
      case ListElem(e) =>
        AppendSlots(t.child, e, item.items);
        OpenSlotSlots(t, r.0.child, item.items);
    }
  }

  /** On success, `append` adds exactly one slot per container. */
  lemma AppendLength<V>(s: BuilderState<V>, elem: ElemType, items: seq<Datum<V>>)
    requires WF(s) && s.ListState? && AllConform(items, ListElem(elem))
    ensures AppendSpec(s, elem, items).1.Pass? ==>
              Len(AppendSpec(s, elem, items).0) == Len(s) + |items|
  {
    AppendSlots(s, elem, items);
  }

  /** The class check only looks one level down: a `List<List<double>>`
      append to a list-of-lists builder whose innermost builder holds
      `int32` passes the outer check, opens a slot in the outer builder and
      then raises from the inner append, leaving that slot in place. */
  lemma NestedMismatchKeepsSlot<V>(x: V)
    ensures var s := ListState([], [], ListState([], [], PrimState(Int32, [])));
            var items := [Items([Items([Scalar(x)])])];
            AllConform(items, ListElem(ListElem(PrimElem(Double))))
            && WF(s)
            && AppendSpec(s, ListElem(PrimElem(Double)), items).1 == Fail(NullValueBuilder)
            && Len(AppendSpec(s, ListElem(PrimElem(Double)), items).0) == 1
  {
    var s := ListState([], [], ListState([], [], PrimState(Int32, [])));
    var items: seq<Datum<V>> := [Items([Items([Scalar(x)])])];
    var inner := Items([Scalar(x)]);
    assert Conforms(inner, ListElem(PrimElem(Double)));
    assert Conforms(items[0], ListElem(ListElem(PrimElem(Double))));
    assert items[..0] == [];
    var r := AppendOne(s, ListElem(PrimElem(Double)), items[0]);
    assert AppendSpec(s.child, PrimElem(Double), [inner]) == (s.child, Fail(NullValueBuilder));
    assert AppendFold(s, ListElem(PrimElem(Double)), items[..0]) == (s, Pass);
    assert AppendFold(s, ListElem(PrimElem(Double)), items) == r;
  }
}
