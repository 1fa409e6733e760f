/** `bind_array`: concatenation of same-typed array chunks into one array
    (include/dataframe/array/bind.hpp).

    `Bind` is the specification: one case per type tag, exactly as the
    visitor has them. The methods at the end follow the source's loops
    (the visitor's length-summing constructor, the append loops of the
    primitive visits and the offset-writing loop of the list visit) and are
    proved to compute `Bind`. */
module ArrayBind {
  import opened Wrappers
  import opened ArrowTypes
  import opened Arrays
  import opened Offsets

  datatype BindError =
    | DifferentTypes   // "Bind arrays of different types"
    | NotImplemented   // the visitor has no case for the type tag

  predicate SameType<V>(chunks: seq<Array<V>>)
    requires |chunks| >= 1
  {
    forall i :: 0 <= i < |chunks| ==> TypeOf(chunks[i]) == TypeOf(chunks[0])
  }

  /** The types for which the visitor, and every visit it recurses into,
      has a case. */
  predicate Bindable(t: LogicalType) {
    match t
    case NullType => true
    case PrimType(_) => true
    case ListType(elem) => Bindable(elem)
    case StructType(fields) => forall j :: 0 <= j < |fields| ==> Bindable(fields[j].ty)
    case _ => false
  }

  // ---------------------------------------------------------------------
  // Primitive chunks

  predicate AllPrims<V>(chunks: seq<Array<V>>) {
    forall i :: 0 <= i < |chunks| ==> chunks[i].PrimArray?
  }

  /** The chunks' values, in chunk order. */
  function ConcatValues<V>(chunks: seq<Array<V>>): seq<V>
    requires AllPrims(chunks)
  {
    if chunks == [] then [] else chunks[0].values + ConcatValues(chunks[1..])
  }

  // ---------------------------------------------------------------------
  // List chunks

  predicate AllLists<V>(chunks: seq<Array<V>>) {
    forall i :: 0 <= i < |chunks| ==> chunks[i].ListArray? && WellFormed(chunks[i])
  }

  /** The width of the child span a list chunk references: `p[n] - p[0]`. */
  function Span<V>(c: Array<V>): nat
    requires c.ListArray? && WellFormed(c)
  {
    Width(c.offsets)
  }

  /** The raw offsets of every list chunk. */
  function OffsetLists<V>(chunks: seq<Array<V>>): (r: seq<seq<int>>)
    requires AllLists(chunks)
    ensures |r| == |chunks| && Runs(r)
    ensures forall i :: 0 <= i < |r| ==> r[i] == chunks[i].offsets
  {
    seq(|chunks|, i requires 0 <= i < |chunks| => chunks[i].offsets)
  }

  /** The offsets of a bound list: a leading 0, then the running sum. */
  function BoundOffsets<V>(chunks: seq<Array<V>>): seq<int>
    requires AllLists(chunks)
  {
    [0] + Rebase(0, OffsetLists(chunks))
  }

  /** Each chunk's child sliced to exactly the span `[p[0], p[n])` it
      references. */
  function ValueChunks<V>(chunks: seq<Array<V>>): (r: seq<Array<V>>)
    requires AllLists(chunks)
    ensures |r| == |chunks| && AllWellFormed(r)
    ensures forall i :: 0 <= i < |r| ==>
              TypeOf(r[i]) == chunks[i].elem && Length(r[i]) == Span(chunks[i])
  {
    seq(|chunks|, i requires 0 <= i < |chunks| => SpanOf(chunks[i]))
  }

  /** One list chunk's child, sliced to the span `[p[0], p[n])`. */
  function SpanOf<V>(c: Array<V>): Array<V>
    requires c.ListArray? && WellFormed(c)
  {
    Slice(c.child, c.offsets[0], Span(c))
  }

  // ---------------------------------------------------------------------
  // Struct chunks

  predicate AllStructs<V>(chunks: seq<Array<V>>, fields: seq<Field>) {
    forall i :: 0 <= i < |chunks| ==>
      chunks[i].StructArray? && chunks[i].fields == fields && WellFormed(chunks[i])
  }

  /** Field `j` of every chunk, in chunk order. */
  function FieldChunks<V>(chunks: seq<Array<V>>, fields: seq<Field>, j: nat): (r: seq<Array<V>>)
    requires AllStructs(chunks, fields) && j < |fields|
    ensures |r| == |chunks| && AllWellFormed(r)
    ensures forall i :: 0 <= i < |r| ==> TypeOf(r[i]) == fields[j].ty
  {
    seq(|chunks|, i requires 0 <= i < |chunks| => chunks[i].children[j])
  }

  /** The bound fields, or the first field's failure. */
  function Collect<V>(rs: seq<Result<Option<Array<V>>, BindError>>): (r: Result<seq<Array<V>>, BindError>)
    requires forall j :: 0 <= j < |rs| && rs[j].Success? ==> rs[j].value.Some?
    ensures r.Success? <==> forall j :: 0 <= j < |rs| ==> rs[j].Success?
    ensures r.Success? ==>
              && |r.value| == |rs|
              && forall j :: 0 <= j < |rs| ==> rs[j] == Success(Some(r.value[j]))
    ensures r.Failure? ==>
              exists j :: 0 <= j < |rs| && rs[j] == Failure(r.error) &&
                forall k :: 0 <= k < j ==> rs[k].Success?
  {
    if rs == [] then Success([])
    else if rs[0].Failure? then Failure(rs[0].error)
    else match Collect(rs[1..])
      case Success(tail) => Success([rs[0].value.value] + tail)
      case Failure(e) => Failure(e)
  }

  // ---------------------------------------------------------------------
  // The specification

  /** `bind_array(chunks)`. Empty input gives no array (`nullptr`), one chunk
      is returned as it is, chunks of different types are refused, and
      otherwise the visitor case of the first chunk's type builds the
      result. */
  function Bind<V>(chunks: seq<Array<V>>): (r: Result<Option<Array<V>>, BindError>)
    requires AllWellFormed(chunks)
    ensures |chunks| >= 1 && r.Success? ==>
              && r.value.Some?
              && WellFormed(r.value.value)
              && TypeOf(r.value.value) == TypeOf(chunks[0])
              && Length(r.value.value) == TotalLength(chunks)
    decreases if chunks == [] then NullType else TypeOf(chunks[0])
  {
    if |chunks| == 0 then Success(None)
    else if |chunks| == 1 then
      assert chunks[1..] == [];
      Success(Some(chunks[0]))
    else if !SameType(chunks) then Failure(DifferentTypes)
    else
      match chunks[0]
      case NullArray(_) => Success(Some(NullArray(TotalLength(chunks))))
      case PrimArray(tag, _) =>
        assert AllPrims(chunks) by {
          forall i | 0 <= i < |chunks| ensures chunks[i].PrimArray? {
            assert TypeOf(chunks[i]) == PrimType(tag);
          }
        }
        PrimConcatLength(chunks);
        Success(Some(PrimArray(tag, ConcatValues(chunks))))
      case ListArray(elem, _, _) =>
        assert AllLists(chunks) by {
          forall i | 0 <= i < |chunks| ensures chunks[i].ListArray? {
            assert TypeOf(chunks[i]) == ListType(elem);
          }
        }
        var vc := ValueChunks(chunks);
        (match Bind(vc)
         case Failure(e) => Failure(e)
         case Success(child) =>
           BoundOffsetsShape(chunks);
           Success(Some(ListArray(elem, BoundOffsets(chunks), child.value))))
      case StructArray(fields, _, _) =>
        assert AllStructs(chunks, fields) by {
          forall i | 0 <= i < |chunks| ensures chunks[i].StructArray? && chunks[i].fields == fields {
            assert TypeOf(chunks[i]) == StructType(fields);
          }
        }
        var rs := seq(|fields|, j requires 0 <= j < |fields| => Bind(FieldChunks(chunks, fields, j)));
        (match Collect(rs)
         case Failure(e) => Failure(e)
         case Success(children) =>
           FieldChunksLength(chunks, fields);
           Success(Some(StructArray(fields, TotalLength(chunks), children))))
      case OtherArray(_, _) => Failure(NotImplemented)
  }

  // ---------------------------------------------------------------------
  // Helper facts used by the specification

  lemma {:induction false} PrimConcatLength<V>(chunks: seq<Array<V>>)
    requires AllPrims(chunks)
    ensures |ConcatValues(chunks)| == TotalLength(chunks)
  {
    if chunks != [] {
      PrimConcatLength(chunks[1..]);
    }
  }

  /** The list chunks have as many slots as their offsets delimit. */
  lemma {:induction false} OffsetListsSlots<V>(chunks: seq<Array<V>>)
    requires AllLists(chunks)
    ensures Slots(OffsetLists(chunks)) == TotalLength(chunks)
  {
    if chunks != [] {
      assert OffsetLists(chunks)[1..] == OffsetLists(chunks[1..]);
      OffsetListsSlots(chunks[1..]);
    }
  }

  lemma {:induction false} ValueChunksLength<V>(chunks: seq<Array<V>>)
    requires AllLists(chunks)
    ensures TotalLength(ValueChunks(chunks)) == WidthSum(OffsetLists(chunks))
  {
    if chunks != [] {
      assert ValueChunks(chunks)[1..] == ValueChunks(chunks[1..]);
      assert OffsetLists(chunks)[1..] == OffsetLists(chunks[1..]);
      ValueChunksLength(chunks[1..]);
    }
  }

  /** The bound offsets delimit exactly the bound child. */
  lemma BoundOffsetsShape<V>(chunks: seq<Array<V>>)
    requires AllLists(chunks)
    ensures OffsetsWithin(BoundOffsets(chunks), TotalLength(ValueChunks(chunks)))
    ensures |BoundOffsets(chunks)| == TotalLength(chunks) + 1
  {
    RebaseShape(0, OffsetLists(chunks));
    ValueChunksLength(chunks);
    OffsetListsSlots(chunks);
  }

  lemma {:induction false} FieldChunksLength<V>(chunks: seq<Array<V>>, fields: seq<Field>)
    requires AllStructs(chunks, fields)
    ensures forall j :: 0 <= j < |fields| ==> TotalLength(FieldChunks(chunks, fields, j)) == TotalLength(chunks)
  {
    if chunks != [] {
      FieldChunksLength(chunks[1..], fields);
      forall j | 0 <= j < |fields|
        ensures TotalLength(FieldChunks(chunks, fields, j)) == TotalLength(chunks)
      {
        assert FieldChunks(chunks, fields, j)[1..] == FieldChunks(chunks[1..], fields, j);
      }
    }
  }

  // ---------------------------------------------------------------------
  // Properties of bind

  /** No chunks: no array (`nullptr`). */
  lemma BindEmpty<V>()
    ensures Bind<V>([]) == Success(None)
  {
  }

  /** A single chunk is returned unchanged. */
  lemma BindSingle<V>(c: Array<V>)
    requires WellFormed(c)
    ensures Bind([c]) == Success(Some(c))
  {
  }

  /** Chunks whose types differ are refused. */
  lemma BindDifferentTypes<V>(chunks: seq<Array<V>>)
    requires AllWellFormed(chunks) && |chunks| >= 2 && !SameType(chunks)
    ensures Bind(chunks) == Failure(DifferentTypes)
  {
  }

  /** Two or more chunks bind exactly when they share one type and every
      visit the bind recurses into has a case for its type. */
  lemma {:induction false} BindSucceeds<V>(chunks: seq<Array<V>>)
    requires AllWellFormed(chunks) && |chunks| >= 2
    ensures Bind(chunks).Success? <==> SameType(chunks) && Bindable(TypeOf(chunks[0]))
    decreases TypeOf(chunks[0])
  {
    if SameType(chunks) {
      match chunks[0]
      case NullArray(_) =>
      case PrimArray(_, _) =>
      case OtherArray(_, _) =>
      case ListArray(elem, _, _) =>
        assert AllLists(chunks) by {
          forall i | 0 <= i < |chunks| ensures chunks[i].ListArray? {
            assert TypeOf(chunks[i]) == ListType(elem);
          }
        }
        var vc := ValueChunks(chunks);
        BindSucceeds(vc);
        assert SameType(vc);
      case StructArray(fields, _, _) =>
        assert AllStructs(chunks, fields) by {
          forall i | 0 <= i < |chunks| ensures chunks[i].StructArray? && chunks[i].fields == fields {
            assert TypeOf(chunks[i]) == StructType(fields);
          }
        }
        forall j | 0 <= j < |fields|
          ensures Bind(FieldChunks(chunks, fields, j)).Success? <==> Bindable(fields[j].ty)
        {
          var fc := FieldChunks(chunks, fields, j);
          BindSucceeds(fc);
          assert SameType(fc);
        }
    }
  }

  /** The central property: the bound array holds the chunks' slots one after
      another, so binding is indistinguishable from never having split. */
  lemma {:induction false} BindElements<V>(chunks: seq<Array<V>>)
    requires AllWellFormed(chunks) && |chunks| >= 1 && Bind(chunks).Success?
    ensures Elements(Bind(chunks).value.value) == ConcatElements(chunks)
    decreases TypeOf(chunks[0])
  {
    if |chunks| == 1 {
      assert chunks[1..] == [];
    } else {
      match chunks[0]
      case NullArray(_) =>
        NullConcat(chunks);
      case PrimArray(tag, _) =>
        SameTypePrims(chunks);
        PrimConcat(chunks);
      case OtherArray(_, _) =>
      case ListArray(elem, _, _) =>
        SameTypeLists(chunks);
        BindListUnfold(chunks);
        var vc := ValueChunks(chunks);
        BindElements(vc);
        ListChildSlots(chunks, Bind(vc).value.value);
      case StructArray(fields, _, _) =>
        SameTypeStructs(chunks);
        BindStructUnfold(chunks);
        var children := Bind(chunks).value.value.children;
        forall j | 0 <= j < |fields|
          ensures Elements(children[j]) == ConcatElements(FieldChunks(chunks, fields, j))
        {
          BindElements(FieldChunks(chunks, fields, j));
        }
        StructChildRows(chunks, fields, children);
    }
  }

  /** List bind writes `length + 1` offsets starting at 0; slot `k` of the
      result is as long as the `k`-th list of the chunks in chunk order; and
      the last offset is the bound child's length, so the child holds only
      the referenced spans. */
  lemma BindListOffsets<V>(chunks: seq<Array<V>>)
    requires AllWellFormed(chunks) && |chunks| >= 2 && Bind(chunks).Success?
    requires chunks[0].ListArray?
    ensures AllLists(chunks)
    ensures var r := Bind(chunks).value.value;
            && r.ListArray?
            && |r.offsets| == TotalLength(chunks) + 1
            && r.offsets[0] == 0
            && r.offsets[|r.offsets| - 1] == Length(r.child) == WidthSum(OffsetLists(chunks))
            && Diffs(r.offsets) == ConcatDiffs(OffsetLists(chunks))
  {
    SameTypeLists(chunks);
    BindListUnfold(chunks);
    BoundOffsetsShape(chunks);
    RebaseShape(0, OffsetLists(chunks));
    ValueChunksLength(chunks);
    RebaseDiffs(0, OffsetLists(chunks));
  }

  /** The bound child of a list holds exactly the spans the chunks
      reference, in chunk order. */
  lemma BindListChild<V>(chunks: seq<Array<V>>)
    requires AllWellFormed(chunks) && |chunks| >= 2 && Bind(chunks).Success?
    requires chunks[0].ListArray?
    ensures var r := Bind(chunks).value.value;
            r.ListArray? && AllLists(chunks) &&
            Elements(r.child) == Spans(OffsetLists(chunks), ChildContents(chunks))
  {
    SameTypeLists(chunks);
    BindListUnfold(chunks);
    BindElements(ValueChunks(chunks));
    ValueChunksSpans(chunks);
  }

  /** Struct bind keeps the fields, and field `j` of the result is the bind
      of field `j` across the chunks. */
  lemma BindStructFields<V>(chunks: seq<Array<V>>)
    requires AllWellFormed(chunks) && |chunks| >= 2 && Bind(chunks).Success?
    requires chunks[0].StructArray?
    ensures var r := Bind(chunks).value.value;
            && r.StructArray?
            && r.fields == chunks[0].fields
            && |r.children| == |chunks[0].fields|
            && AllStructs(chunks, r.fields)
            && forall j :: 0 <= j < |r.children| ==>
                 Bind(FieldChunks(chunks, r.fields, j)) == Success(Some(r.children[j]))
  {
    var fields := chunks[0].fields;
    assert AllStructs(chunks, fields) by {
      forall i | 0 <= i < |chunks| ensures chunks[i].StructArray? && chunks[i].fields == fields {
        assert TypeOf(chunks[i]) == StructType(fields);
      }
    }
  }

  // ---------------------------------------------------------------------
  // Lemmas behind BindElements

  lemma SameTypePrims<V>(chunks: seq<Array<V>>)
    requires AllWellFormed(chunks) && |chunks| >= 1 && SameType(chunks) && chunks[0].PrimArray?
    ensures AllPrims(chunks)
  {
    forall i | 0 <= i < |chunks| ensures chunks[i].PrimArray? {
      assert TypeOf(chunks[i]) == PrimType(chunks[0].tag);
    }
  }

  lemma SameTypeLists<V>(chunks: seq<Array<V>>)
    requires AllWellFormed(chunks) && |chunks| >= 1 && SameType(chunks) && chunks[0].ListArray?
    ensures AllLists(chunks)
  {
    forall i | 0 <= i < |chunks| ensures chunks[i].ListArray? {
      assert TypeOf(chunks[i]) == ListType(chunks[0].elem);
    }
  }

  lemma SameTypeStructs<V>(chunks: seq<Array<V>>)
    requires AllWellFormed(chunks) && |chunks| >= 1 && SameType(chunks) && chunks[0].StructArray?
    ensures AllStructs(chunks, chunks[0].fields)
  {
    forall i | 0 <= i < |chunks| ensures chunks[i].StructArray? && chunks[i].fields == chunks[0].fields {
      assert TypeOf(chunks[i]) == StructType(chunks[0].fields);
    }
  }

  /** What the list case of `Bind` builds when it succeeds. */
  lemma BindListUnfold<V>(chunks: seq<Array<V>>)
    requires AllWellFormed(chunks) && |chunks| >= 2 && SameType(chunks) && AllLists(chunks)
    requires Bind(chunks).Success?
    ensures Bind(ValueChunks(chunks)).Success?
    ensures Bind(chunks).value.value
              == ListArray(chunks[0].elem, BoundOffsets(chunks), Bind(ValueChunks(chunks)).value.value)
  {
  }

  /** What the struct case of `Bind` builds when it succeeds. */
  lemma BindStructUnfold<V>(chunks: seq<Array<V>>)
    requires AllWellFormed(chunks) && |chunks| >= 2 && SameType(chunks)
    requires chunks[0].StructArray? && AllStructs(chunks, chunks[0].fields)
    requires Bind(chunks).Success?
    ensures var r := Bind(chunks).value.value;
            var fields := chunks[0].fields;
            && r.StructArray?
            && r.fields == fields
            && r.length == TotalLength(chunks)
            && |r.children| == |fields|
            && forall j :: 0 <= j < |fields| ==>
                 Bind(FieldChunks(chunks, fields, j)) == Success(Some(r.children[j]))
  {
    var fields := chunks[0].fields;
    var rs := seq(|fields|, j requires 0 <= j < |fields| => Bind(FieldChunks(chunks, fields, j)));
    assert Bind(chunks) == (match Collect(rs)
      case Failure(e) => Failure(e)
      case Success(children) => Success(Some(StructArray(fields, TotalLength(chunks), children))));
  }

  /** The bound offsets, read over a child holding the referenced spans, give
      the chunks' slots. */
  lemma ListChildSlots<V>(chunks: seq<Array<V>>, child: Array<V>)
    requires AllLists(chunks) && WellFormed(child)
    requires Elements(child) == ConcatElements(ValueChunks(chunks))
    ensures OffsetsWithin(BoundOffsets(chunks), Length(child))
    ensures ListSlots(BoundOffsets(chunks), Elements(child)) == ConcatElements(chunks)
  {
    var ps, cs := OffsetLists(chunks), ChildContents(chunks);
    ValueChunksSpans(chunks);
    SlotsConcat(0, Elements(child), ps, cs);
    ListsElements(chunks);
  }

  /** Fields bound one by one give the chunks' rows. */
  lemma StructChildRows<V>(chunks: seq<Array<V>>, fields: seq<Field>, children: seq<Array<V>>)
    requires AllStructs(chunks, fields) && |children| == |fields|
    requires forall j :: 0 <= j < |fields| ==>
               && WellFormed(children[j])
               && Length(children[j]) == TotalLength(chunks)
               && Elements(children[j]) == ConcatElements(FieldChunks(chunks, fields, j))
    ensures Rows(ColumnsOf(children, TotalLength(chunks)), TotalLength(chunks)) == ConcatElements(chunks)
  {
    assert ColumnsOf(children, TotalLength(chunks)) == FieldColumns(chunks, fields);
    RowsConcat(chunks, fields);
  }

  lemma {:induction false} NullConcat<V>(chunks: seq<Array<V>>)
    requires AllWellFormed(chunks)
    requires forall i :: 0 <= i < |chunks| ==> chunks[i].NullArray?
    ensures ConcatElements(chunks) == seq(TotalLength(chunks), _ => NullValue)
  {
    if chunks != [] {
      NullConcat(chunks[1..]);
    }
  }

  lemma {:induction false} PrimConcat<V>(chunks: seq<Array<V>>)
    requires AllWellFormed(chunks) && AllPrims(chunks)
    ensures var vs := ConcatValues(chunks);
            ConcatElements(chunks) == seq(|vs|, i requires 0 <= i < |vs| => Atom(vs[i]))
  {
    if chunks != [] {
      PrimConcat(chunks[1..]);
    }
  }

  /** The spans `[p[0], p[n])` the chunks reference, one after another. */
  // ---------------------------------------------------------------------
  // List slots over plain contents: offsets lists `ps`, child contents `cs`

  /** Each offsets list lies within the child contents it indexes. */
  predicate Within<V>(ps: seq<seq<int>>, cs: seq<seq<Value<V>>>) {
    |ps| == |cs| && forall i :: 0 <= i < |ps| ==> OffsetsWithin(ps[i], |cs[i]|)
  }

  lemma WithinTail<V>(ps: seq<seq<int>>, cs: seq<seq<Value<V>>>)
    requires Within(ps, cs) && ps != []
    ensures NonEmpty(ps) && Within(ps[1..], cs[1..])
  {
    forall i | 0 <= i < |ps| - 1 ensures OffsetsWithin(ps[1..][i], |cs[1..][i]|) {
      assert ps[1..][i] == ps[i + 1] && cs[1..][i] == cs[i + 1];
    }
  }

  /** The referenced spans `[p[0], p[n])` of every child, one after another:
      the contents of the bound child. */
  function Spans<V>(ps: seq<seq<int>>, cs: seq<seq<Value<V>>>): (r: seq<Value<V>>)
    requires Within(ps, cs)
    ensures NonEmpty(ps) && |r| == WidthSum(ps)
    decreases |ps|
  {
    if ps == [] then []
    else
      WithinTail(ps, cs);
      cs[0][ps[0][0]..ps[0][|ps[0]| - 1]] + Spans(ps[1..], cs[1..])
  }

  /** The slots of every list, one after another. */
  function SlotsOf<V>(ps: seq<seq<int>>, cs: seq<seq<Value<V>>>): seq<Value<V>>
    requires Within(ps, cs)
    decreases |ps|
  {
    if ps == [] then []
    else
      WithinTail(ps, cs);
      ListSlots(ps[0], cs[0]) + SlotsOf(ps[1..], cs[1..])
  }

  /** One list's slots, read through its rebased offsets from a contents
      `e` that holds the list's span at `u`, are the list's own slots. */
  lemma RebasedSlots<V>(p: seq<int>, c: seq<Value<V>>, u: nat, e: seq<Value<V>>)
    requires OffsetsWithin(p, |c|) && u + Width(p) <= |e|
    requires e[u..u + Width(p)] == c[p[0]..p[|p| - 1]]
    ensures var a := [u] + RebasedTail(p, u);
            OffsetsWithin(a, |e|) && ListSlots(a, e) == ListSlots(p, c)
  {
    var sp := c[p[0]..p[|p| - 1]];
    var a := [u] + RebasedTail(p, u);
    RebasedMonotone(p, u);
    forall i | 0 <= i < |a| - 1
      ensures e[a[i]..a[i + 1]] == c[p[i]..p[i + 1]]
    {
      assert p[0] <= p[i] <= p[i + 1] <= p[|p| - 1];
      assert a[i] == u + p[i] - p[0] && a[i + 1] == u + p[i + 1] - p[0];
      SliceOfSlice(e, u, u + Width(p), p[i] - p[0], p[i + 1] - p[0]);
      SliceOfSlice(c, p[0], p[|p| - 1], p[i] - p[0], p[i + 1] - p[0]);
    }
  }

  lemma SliceOfSlice<T>(c: seq<T>, lo: int, hi: int, x: int, y: int)
    requires 0 <= lo <= hi <= |c| && 0 <= x <= y <= hi - lo
    ensures c[lo..hi][x..y] == c[lo + x..lo + y]
  {
    forall k | 0 <= k < y - x ensures c[lo..hi][x..y][k] == c[lo + x..lo + y][k] {
      assert c[lo..hi][x..y][k] == c[lo..hi][x + k] == c[lo + x + k];
    }
  }

  lemma ListSlotsJoin<V>(a: seq<int>, b: seq<int>, e: seq<Value<V>>)
    requires |a| >= 1 && |b| >= 1 && a[|a| - 1] == b[0]
    requires OffsetsWithin(a, |e|) && OffsetsWithin(b, |e|)
    ensures OffsetsWithin(a + b[1..], |e|)
    ensures ListSlots(a + b[1..], e) == ListSlots(a, e) + ListSlots(b, e)
  {
    MonotoneJoin(a, b);
    var s := a + b[1..];
    forall i | 0 <= i < |s| - 1
      ensures ListSlots(s, e)[i] == (ListSlots(a, e) + ListSlots(b, e))[i]
    {
      if i < |a| - 1 {
        assert s[i] == a[i] && s[i + 1] == a[i + 1];
      } else {
        assert s[i] == b[i - |a| + 1] && s[i + 1] == b[i - |a| + 2];
      }
    }
  }

  /** A window of `e` holding `x + y` splits into a window holding `x`
      followed by one holding `y`. */
  lemma SplitWindow<T>(e: seq<T>, lo: nat, mid: nat, hi: nat, x: seq<T>, y: seq<T>)
    requires lo <= mid && mid - lo == |x| && hi == mid + |y| && hi <= |e| && e[lo..hi] == x + y
    ensures e[lo..mid] == x && e[mid..mid + |y|] == y
  {
    SliceOfSlice(e, lo, hi, 0, |x|);
    SliceOfSlice(e, lo, hi, |x|, hi - lo);
  }

  /** The rebased offsets from `u`, read over a contents whose window from
      `u` holds the concatenated spans, give every list's slots in order. */
  lemma {:induction false} SlotsConcat<V>(u: nat, e: seq<Value<V>>, ps: seq<seq<int>>, cs: seq<seq<Value<V>>>)
    requires Within(ps, cs) && u + |Spans(ps, cs)| <= |e|
    requires e[u..u + |Spans(ps, cs)|] == Spans(ps, cs)
    ensures var os := [u] + Rebase(u, ps);
            OffsetsWithin(os, |e|) && ListSlots(os, e) == SlotsOf(ps, cs)
    decreases |ps|
  {
    if ps != [] {
      SpansCons(ps, cs);
      SplitWindow(e, u, u + Width(ps[0]), u + |Spans(ps, cs)|,
                  cs[0][ps[0][0]..ps[0][|ps[0]| - 1]], Spans(ps[1..], cs[1..]));
      RebasedSlots(ps[0], cs[0], u, e);
      SlotsConcat(u + Width(ps[0]), e, ps[1..], cs[1..]);
      SlotsCons(u, e, ps, cs);
    }
  }

  /** The spans are the first list's span followed by the others'. */
  lemma SpansCons<V>(ps: seq<seq<int>>, cs: seq<seq<Value<V>>>)
    requires Within(ps, cs) && ps != []
    ensures NonEmpty(ps) && Within(ps[1..], cs[1..]) && OffsetsWithin(ps[0], |cs[0]|)
    ensures |cs[0][ps[0][0]..ps[0][|ps[0]| - 1]]| == Width(ps[0])
    ensures Spans(ps, cs) == cs[0][ps[0][0]..ps[0][|ps[0]| - 1]] + Spans(ps[1..], cs[1..])
  {
    WithinTail(ps, cs);
  }

  /** The step of `SlotsConcat`. */
  lemma SlotsCons<V>(u: nat, e: seq<Value<V>>, ps: seq<seq<int>>, cs: seq<seq<Value<V>>>)
    requires Within(ps, cs) && ps != []
    requires NonEmpty(ps[1..]) && Within(ps[1..], cs[1..])
    requires OffsetsWithin([u] + RebasedTail(ps[0], u), |e|)
    requires ListSlots([u] + RebasedTail(ps[0], u), e) == ListSlots(ps[0], cs[0])
    requires OffsetsWithin([u + Width(ps[0])] + Rebase(u + Width(ps[0]), ps[1..]), |e|)
    requires ListSlots([u + Width(ps[0])] + Rebase(u + Width(ps[0]), ps[1..]), e) == SlotsOf(ps[1..], cs[1..])
    ensures OffsetsWithin([u] + Rebase(u, ps), |e|)
    ensures ListSlots([u] + Rebase(u, ps), e) == SlotsOf(ps, cs)
  {
    RebaseStep(u, ps, [u] + RebasedTail(ps[0], u), [u + Width(ps[0])] + Rebase(u + Width(ps[0]), ps[1..]));
    RebasedMonotone(ps[0], u);
    JoinSlots([u] + Rebase(u, ps), [u] + RebasedTail(ps[0], u), [u + Width(ps[0])] + Rebase(u + Width(ps[0]), ps[1..]), e,
              ListSlots(ps[0], cs[0]), SlotsOf(ps[1..], cs[1..]));
    SlotsOfCons(ps, cs);
  }

  /** Joining two offset lists that meet end to start joins their slots. */
  lemma JoinSlots<V>(os: seq<int>, a: seq<int>, b: seq<int>, e: seq<Value<V>>,
                     x: seq<Value<V>>, y: seq<Value<V>>)
    requires |a| >= 1 && |b| >= 1 && a[|a| - 1] == b[0] && os == a + b[1..]
    requires OffsetsWithin(a, |e|) && ListSlots(a, e) == x
    requires OffsetsWithin(b, |e|) && ListSlots(b, e) == y
    ensures OffsetsWithin(os, |e|) && ListSlots(os, e) == x + y
  {
    ListSlotsJoin(a, b, e);
  }

  lemma SlotsOfCons<V>(ps: seq<seq<int>>, cs: seq<seq<Value<V>>>)
    requires Within(ps, cs) && ps != []
    ensures Within(ps[1..], cs[1..])
    ensures SlotsOf(ps, cs) == ListSlots(ps[0], cs[0]) + SlotsOf(ps[1..], cs[1..])
  {
    WithinTail(ps, cs);
  }

  // ---------------------------------------------------------------------
  // From list chunks to plain contents

  /** The contents of every list chunk's child. */
  function ChildContents<V>(chunks: seq<Array<V>>): (r: seq<seq<Value<V>>>)
    requires AllLists(chunks)
    ensures Within(OffsetLists(chunks), r)
  {
    seq(|chunks|, i requires 0 <= i < |chunks| => Elements(chunks[i].child))
  }

  lemma ListsTail<V>(chunks: seq<Array<V>>)
    requires AllLists(chunks) && chunks != []
    ensures AllLists(chunks[1..])
    ensures OffsetLists(chunks)[1..] == OffsetLists(chunks[1..])
    ensures ChildContents(chunks)[1..] == ChildContents(chunks[1..])
  {
  }

  /** The chunks' slots are the slots of their offsets over their children. */
  lemma {:induction false} ListsElements<V>(chunks: seq<Array<V>>)
    requires AllLists(chunks)
    ensures ConcatElements(chunks) == SlotsOf(OffsetLists(chunks), ChildContents(chunks))
  {
    if chunks != [] {
      ListsTail(chunks);
      ListsElements(chunks[1..]);
    }
  }

  /** The value chunks the list visit collects hold exactly the referenced
      spans. */
  lemma {:induction false} ValueChunksSpans<V>(chunks: seq<Array<V>>)
    requires AllLists(chunks)
    ensures ConcatElements(ValueChunks(chunks)) == Spans(OffsetLists(chunks), ChildContents(chunks))
  {
    if chunks != [] {
      var c := chunks[0];
      assert Elements(ValueChunks(chunks)[0]) == Elements(c.child)[c.offsets[0]..c.offsets[|c.offsets| - 1]] by {
        SliceElements(c.child, c.offsets[0], Span(c));
      }
      assert ValueChunks(chunks)[1..] == ValueChunks(chunks[1..]);
      ListsTail(chunks);
      ValueChunksSpans(chunks[1..]);
    }
  }

  /** Column `j` of a struct bind: the chunks' field `j` contents in order. */
  function FieldColumns<V>(chunks: seq<Array<V>>, fields: seq<Field>): (r: seq<seq<Value<V>>>)
    requires AllStructs(chunks, fields)
    ensures |r| == |fields| && forall j :: 0 <= j < |r| ==> |r[j]| == TotalLength(chunks)
  {
    FieldChunksLength(chunks, fields);
    seq(|fields|, j requires 0 <= j < |fields| => ConcatElements(FieldChunks(chunks, fields, j)))
  }

  lemma RowsAppend<V>(a: seq<seq<Value<V>>>, na: nat, b: seq<seq<Value<V>>>, nb: nat)
    requires |a| == |b|
    requires forall j :: 0 <= j < |a| ==> |a[j]| == na && |b[j]| == nb
    ensures Rows(seq(|a|, j requires 0 <= j < |a| => a[j] + b[j]), na + nb) == Rows(a, na) + Rows(b, nb)
  {
    var ab := seq(|a|, j requires 0 <= j < |a| => a[j] + b[j]);
    forall i | 0 <= i < na + nb
      ensures Rows(ab, na + nb)[i] == (Rows(a, na) + Rows(b, nb))[i]
    {
      if i < na {
        assert forall j :: 0 <= j < |a| ==> ab[j][i] == a[j][i];
      } else {
        assert forall j :: 0 <= j < |a| ==> ab[j][i] == b[j][i - na];
      }
    }
  }

  lemma {:induction false} RowsConcat<V>(chunks: seq<Array<V>>, fields: seq<Field>)
    requires AllStructs(chunks, fields)
    ensures Rows(FieldColumns(chunks, fields), TotalLength(chunks)) == ConcatElements(chunks)
  {
    if chunks != [] {
      var c := chunks[0];
      var rest := chunks[1..];
      RowsConcat(rest, fields);
      var a := ColumnsOf(c.children, c.length);
      var b := FieldColumns(rest, fields);
      forall j | 0 <= j < |fields|
        ensures FieldColumns(chunks, fields)[j] == a[j] + b[j]
      {
        assert FieldChunks(chunks, fields, j)[1..] == FieldChunks(rest, fields, j);
      }
      assert FieldColumns(chunks, fields) == seq(|a|, j requires 0 <= j < |a| => a[j] + b[j]);
      RowsAppend(a, c.length, b, TotalLength(rest));
    }
  }

  // ---------------------------------------------------------------------
  // Appending one chunk to the prefix a loop has processed

  lemma {:induction false} ConcatValuesAppend<V>(chunks: seq<Array<V>>, c: Array<V>)
    requires AllPrims(chunks) && c.PrimArray?
    ensures AllPrims(chunks + [c])
    ensures ConcatValues(chunks + [c]) == ConcatValues(chunks) + c.values
  {
    if chunks == [] {
      assert [c][1..] == [];
    } else {
      assert (chunks + [c])[1..] == chunks[1..] + [c];
      ConcatValuesAppend(chunks[1..], c);
    }
  }

  // ---------------------------------------------------------------------
  // The visitor, step by step

  /** The visitor's constructor: sums the chunk lengths and refuses the input
      as soon as a chunk's type differs from the first chunk's. */
  method VisitorLength<V>(chunks: seq<Array<V>>) returns (r: Result<nat, BindError>)
    requires |chunks| >= 1
    ensures SameType(chunks) ==> r == Success(TotalLength(chunks))
    ensures !SameType(chunks) ==> r == Failure(DifferentTypes)
  {
    var ty := TypeOf(chunks[0]);
    var length := 0;
    var i := 0;
    while i < |chunks|
      invariant 0 <= i <= |chunks|
      invariant length == TotalLength(chunks[..i])
      invariant forall k :: 0 <= k < i ==> TypeOf(chunks[k]) == ty
    {
      TotalLengthAppend(chunks[..i], chunks[i]);
      assert chunks[..i + 1] == chunks[..i] + [chunks[i]];
      length := length + Length(chunks[i]);
      if TypeOf(chunks[i]) != ty {
        return Failure(DifferentTypes);
      }
      i := i + 1;
    }
    assert chunks[..i] == chunks;
    return Success(length);
  }

  /** The visit of a fixed-width type: each chunk's values are appended in
      one block. */
  method VisitFixedWidth<V>(chunks: seq<Array<V>>) returns (values: seq<V>)
    requires AllPrims(chunks)
    ensures values == ConcatValues(chunks)
  {
    values := [];
    var i := 0;
    while i < |chunks|
      invariant 0 <= i <= |chunks|
      invariant values == ConcatValues(chunks[..i])
    {
      ConcatValuesAppend(chunks[..i], chunks[i]);
      assert chunks[..i + 1] == chunks[..i] + [chunks[i]];
      values := values + chunks[i].values;
      i := i + 1;
    }
    assert chunks[..i] == chunks;
  }

  /** The visit of a boolean, binary, string, fixed-size binary or decimal
      type: values are appended one at a time. */
  method VisitElementWise<V>(chunks: seq<Array<V>>) returns (values: seq<V>)
    requires AllPrims(chunks)
    ensures values == ConcatValues(chunks)
  {
    values := [];
    var i := 0;
    while i < |chunks|
      invariant 0 <= i <= |chunks|
      invariant values == ConcatValues(chunks[..i])
    {
      var data := chunks[i].values;
      var j := 0;
      while j != |data|
        invariant 0 <= j <= |data|
        invariant values == ConcatValues(chunks[..i]) + data[..j]
      {
        values := values + [data[j]];
        assert data[..j + 1] == data[..j] + [data[j]];
        j := j + 1;
      }
      ConcatValuesAppend(chunks[..i], chunks[i]);
      assert chunks[..i + 1] == chunks[..i] + [chunks[i]];
      assert data[..j] == data;
      i := i + 1;
    }
    assert chunks[..i] == chunks;
  }

  /** The visit of a list type: writes the rebased offsets into a buffer of
      `length + 1` entries, and collects each chunk's child sliced to the
      span it references. */
  method VisitList<V>(chunks: seq<Array<V>>, length: nat) returns (offsets: array<int>, valueChunks: seq<Array<V>>)
    requires AllLists(chunks) && length == TotalLength(chunks)
    ensures fresh(offsets)
    ensures offsets[..] == BoundOffsets(chunks)
    ensures valueChunks == ValueChunks(chunks)
  {
    var ps := OffsetLists(chunks);
    OffsetListsSlots(chunks);
    offsets := new int[length + 1];
    valueChunks := [];
    var u := 0;
    offsets[0] := u;
    var w := 1;
    var k := 0;
    while k < |chunks|
      invariant 0 <= k <= |chunks| && NonEmpty(ps[..k])
      invariant w == 1 + Slots(ps[..k]) <= offsets.Length
      invariant u == WidthSum(ps[..k])
      invariant offsets[..w] == [0] + Rebase(0, ps[..k])
      invariant valueChunks == ValueChunks(chunks)[..k]
    {
      assert ValueChunks(chunks)[..k + 1] == ValueChunks(chunks)[..k] + [SpanOf(chunks[k])];
      valueChunks := valueChunks + [SpanOf(chunks[k])];
      w, u := WriteChunkOffsets(offsets, ps, k, w, u);
      k := k + 1;
    }
    assert ps[..k] == ps;
    assert ValueChunks(chunks)[..k] == ValueChunks(chunks);
  }

  /** One turn of the list visit's outer loop, offsets only: the offsets of
      chunk `k`, appended to those of the chunks before it. */
  method WriteChunkOffsets(offsets: array<int>, ps: seq<seq<int>>, k: nat, w: nat, u: int)
      returns (w': nat, u': int)
    requires NonEmpty(ps) && k < |ps| && NonEmpty(ps[..k])
    requires offsets.Length == 1 + Slots(ps)
    requires w <= offsets.Length
    requires w == 1 + Slots(ps[..k]) && u == WidthSum(ps[..k])
    requires offsets[..w] == [0] + Rebase(0, ps[..k])
    modifies offsets
    ensures NonEmpty(ps[..k + 1])
    ensures w' == 1 + Slots(ps[..k + 1]) <= offsets.Length && u' == WidthSum(ps[..k + 1])
    ensures offsets[..w'] == [0] + Rebase(0, ps[..k + 1])
  {
    PrefixStep(ps, k);
    ghost var before := offsets[..w];
    w', u' := WriteRebased(offsets, w, u, ps[k]);
    assert offsets[..w'] == before + RebasedTail(ps[k], u);
  }

  /** The inner loop of the list visit: one offset per slot of a chunk with
      raw offsets `p`, each the running sum `u` advanced by that slot's
      length. */
  method WriteRebased(offsets: array<int>, w: nat, u: int, p: seq<int>) returns (w': nat, u': int)
    requires |p| >= 1 && w + |p| - 1 <= offsets.Length
    modifies offsets
    ensures w' == w + |p| - 1 && u' == u + Width(p)
    ensures offsets[..w'] == old(offsets[..w]) + RebasedTail(p, u)
  {
    var n := |p| - 1;
    ghost var before := offsets[..w];
    w', u' := w, u;
    var i := 0;
    while i != n
      invariant 0 <= i <= n
      invariant w' == w + i
      invariant u' == u + p[i] - p[0]
      invariant offsets[..w'] == before + RebasedTail(p, u)[..i]
      decreases n - i
    {
      u' := u' + (p[i + 1] - p[i]);
      offsets[w'] := u';
      assert RebasedTail(p, u)[..i + 1] == RebasedTail(p, u)[..i] + [u'];
      w' := w' + 1;
      i := i + 1;
    }
    assert RebasedTail(p, u)[..n] == RebasedTail(p, u);
  }

  /** The visit of a struct type: field by field, gathers that field of every
      chunk and binds them; the first field that fails to bind fails the
      visit. */
  method VisitStruct<V>(chunks: seq<Array<V>>, fields: seq<Field>) returns (r: Result<seq<Array<V>>, BindError>)
    requires |chunks| >= 2 && AllStructs(chunks, fields)
    ensures r == Collect(seq(|fields|, j requires 0 <= j < |fields| => Bind(FieldChunks(chunks, fields, j))))
    decreases StructType(fields), 0
  {
    ghost var rs := seq(|fields|, j requires 0 <= j < |fields| => Bind(FieldChunks(chunks, fields, j)));
    var children: seq<Array<V>> := [];
    var j := 0;
    while j != |fields|
      invariant 0 <= j <= |fields| && |children| == j
      invariant forall k :: 0 <= k < j ==> rs[k] == Success(Some(children[k]))
    {
      var values := GatherField(chunks, fields, j);
      assert fields[j].ty < StructType(fields);
      var child := BindArray(values);
      if child.Failure? {
        CollectFirstFailure(rs, j);
        return Failure(child.error);
      }
      children := children + [child.value.value];
      j := j + 1;
    }
    CollectAllSuccess(rs, children);
    return Success(children);
  }

  /** The inner loop of the struct visit: field `j` of every chunk. */
  method GatherField<V>(chunks: seq<Array<V>>, fields: seq<Field>, j: nat) returns (values: seq<Array<V>>)
    requires AllStructs(chunks, fields) && j < |fields|
    ensures values == FieldChunks(chunks, fields, j)
  {
    values := [];
    var i := 0;
    while i != |chunks|
      invariant 0 <= i <= |chunks|
      invariant values == FieldChunks(chunks, fields, j)[..i]
    {
      values := values + [chunks[i].children[j]];
      i := i + 1;
    }
  }

  lemma CollectAllSuccess<V>(rs: seq<Result<Option<Array<V>>, BindError>>, values: seq<Array<V>>)
    requires |values| == |rs| && forall k :: 0 <= k < |rs| ==> rs[k] == Success(Some(values[k]))
    ensures Collect(rs) == Success(values)
  {
    var r := Collect(rs);
    assert r.value == values by {
      assert |r.value| == |values|;
      assert forall k :: 0 <= k < |rs| ==> r.value[k] == values[k];
    }
  }

  lemma CollectFirstFailure<V>(rs: seq<Result<Option<Array<V>>, BindError>>, j: nat)
    requires j < |rs| && rs[j].Failure?
    requires forall k :: 0 <= k < |rs| && rs[k].Success? ==> rs[k].value.Some?
    requires forall k :: 0 <= k < j ==> rs[k].Success?
    ensures Collect(rs) == Failure(rs[j].error)
  {
  }

  /** `bind_array(chunks)`, following the source: the two early returns, the
      visitor's constructor, then the visit for the first chunk's type. */
  method BindArray<V>(chunks: seq<Array<V>>) returns (r: Result<Option<Array<V>>, BindError>)
    requires AllWellFormed(chunks)
    ensures r == Bind(chunks)
    decreases if chunks == [] then NullType else TypeOf(chunks[0]), 1
  {
    if |chunks| == 0 {
      return Success(None);
    }
    if |chunks| == 1 {
      return Success(Some(chunks[0]));
    }
    var init := VisitorLength(chunks);
    if init.Failure? {
      return Failure(init.error);
    }
    var length := init.value;
    match chunks[0] {
      case NullArray(_) =>
        return Success(Some(NullArray(length)));
      case PrimArray(tag, _) =>
        SameTypePrims(chunks);
        var values;
        if IsFixedWidth(tag) {
          values := VisitFixedWidth(chunks);
        } else {
          values := VisitElementWise(chunks);
        }
        return Success(Some(PrimArray(tag, values)));
      case ListArray(elem, _, _) =>
        SameTypeLists(chunks);
        var offsets, valueChunks := VisitList(chunks, length);
        var values := BindArray(valueChunks);
        if values.Failure? {
          return Failure(values.error);
        }
        return Success(Some(ListArray(elem, offsets[..], values.value.value)));
      case StructArray(fields, _, _) =>
        SameTypeStructs(chunks);
        var children := VisitStruct(chunks, fields);
        if children.Failure? {
          return Failure(children.error);
        }
        FieldChunksLength(chunks, fields);
        return Success(Some(StructArray(fields, length, children.value)));
      case OtherArray(_, _) =>
        return Failure(NotImplemented);
    }
  }

  /** The iterator overload: copies `[first, last)` into a vector of chunks
      and binds it. */
  method BindRange<V>(src: seq<Array<V>>, first: nat, last: nat) returns (r: Result<Option<Array<V>>, BindError>)
    requires first <= last <= |src| && AllWellFormed(src)
    ensures r == Bind(src[first..last])
  {
    var chunks: seq<Array<V>> := [];
    var it := first;
    while it != last
      invariant first <= it <= last
      invariant chunks == src[first..it]
    {
      chunks := chunks + [src[it]];
      it := it + 1;
    }
    r := BindArray(chunks);
  }
}
