/** `split_array(a, k)`: an array cut into consecutive slices of `k` slots,
    the last one possibly shorter.

    The splitting routine itself is not part of this model; it is defined
    here the way the bind/split round-trip test uses it (tests/array/src/bind.cpp),
    as consecutive `arrow::Array::Slice` views, so that the round trip with
    `bind_array` can be stated and proved. */
module Split {
  import opened Wrappers
  import opened ArrowTypes
  import opened Arrays
  import opened ArrayBind

  function Min(x: nat, y: nat): nat {
    if x <= y then x else y
  }

  /** The chunk lengths of an `m`-slot split: `k` each, the last one
      possibly shorter. */
  function Pieces(m: nat, k: nat): (r: seq<nat>)
    requires k >= 1
    decreases m
  {
    if m == 0 then [] else [Min(k, m)] + Pieces(m - Min(k, m), k)
  }

  /** The slices of `a` from slot `off` on, `k` slots each. */
  function SplitFrom<V>(a: Array<V>, off: nat, k: nat): (r: seq<Array<V>>)
    requires WellFormed(a) && off <= Length(a) && k >= 1
    ensures AllWellFormed(r)
    ensures |r| == |Pieces(Length(a) - off, k)|
    ensures forall i :: 0 <= i < |r| ==>
              TypeOf(r[i]) == TypeOf(a) && Length(r[i]) == Pieces(Length(a) - off, k)[i]
    decreases Length(a) - off
  {
    if off == Length(a) then []
    else
      var len := Min(k, Length(a) - off);
      [Slice(a, off, len)] + SplitFrom(a, off + len, k)
  }

  function Split<V>(a: Array<V>, k: nat): (r: seq<Array<V>>)
    requires WellFormed(a) && k >= 1
    ensures AllWellFormed(r)
  {
    SplitFrom(a, 0, k)
  }

  /** The number of chunks of an `m`-slot array: `m / k`, plus one for a
      shorter remainder. */
  function ChunkCount(m: nat, k: nat): nat
    requires k >= 1
  {
    m / k + (if m % k == 0 then 0 else 1)
  }

  lemma DivStep(m: nat, k: nat)
    requires 1 <= k <= m
    ensures (m - k) / k == m / k - 1 && (m - k) % k == m % k
  {
    var q, r := (m - k) / k, (m - k) % k;
    assert m == (q + 1) * k + r && 0 <= r < k;
    DivUnique(m, k, q + 1, r);
  }

  lemma DivUnique(m: nat, k: nat, q: int, r: int)
    requires k >= 1 && m == q * k + r && 0 <= r < k
    ensures m / k == q && m % k == r
  {
    var q', r' := m / k, m % k;
    var d := q' - q;
    assert d * k == r - r' by {
      assert q' * k + r' == q * k + r;
      assert q' * k - q * k == d * k;
    }
    if d >= 1 {
      MulAtLeast(d, k);
    }
  }

  lemma MulAtLeast(d: int, k: nat)
    requires d >= 1
    ensures d * k >= k
  {
    assert d * k == (d - 1) * k + k;
    assert (d - 1) * k >= 0;
  }

  lemma {:induction false} PiecesCount(m: nat, k: nat)
    requires k >= 1
    ensures |Pieces(m, k)| == ChunkCount(m, k)
    decreases m
  {
    if m > 0 {
      if m < k {
        DivUnique(m, k, 0, m);
        assert Pieces(0, k) == [];
      } else {
        DivStep(m, k);
        PiecesCount(m - k, k);
      }
    }
  }

  /** Every chunk is non-empty and holds at most `k` slots, every chunk but
      the last exactly `k`, and together they hold all `m`. */
  lemma {:induction false} PiecesShape(m: nat, k: nat)
    requires k >= 1
    ensures forall i :: 0 <= i < |Pieces(m, k)| ==> 1 <= Pieces(m, k)[i] <= k
    ensures forall i :: 0 <= i < |Pieces(m, k)| - 1 ==> Pieces(m, k)[i] == k
    decreases m
  {
    if m > 0 {
      var r := Pieces(m, k);
      var rest := Pieces(m - Min(k, m), k);
      PiecesShape(m - Min(k, m), k);
      if m <= k {
        assert m - Min(k, m) == 0;
        assert rest == [];
      }
      assert r == [Min(k, m)] + rest;
      forall i | 1 <= i < |r| ensures r[i] == rest[i - 1] {
      }
    }
  }

  /** The chunk count of the split (tests/array/src/bind.cpp:56). */
  lemma SplitCount<V>(a: Array<V>, k: nat)
    requires WellFormed(a) && k >= 1
    ensures |Split(a, k)| == ChunkCount(Length(a), k)
  {
    PiecesCount(Length(a), k);
  }

  /** Every chunk keeps the array's type, is non-empty and holds at most `k`
      slots; every chunk but the last holds exactly `k`. */
  lemma SplitChunks<V>(a: Array<V>, k: nat)
    requires WellFormed(a) && k >= 1
    ensures var r := Split(a, k);
            forall i :: 0 <= i < |r| ==>
              && TypeOf(r[i]) == TypeOf(a)
              && 1 <= Length(r[i]) <= k
              && (i < |r| - 1 ==> Length(r[i]) == k)
  {
    PiecesShape(Length(a), k);
    var r := Split(a, k);
    forall i | 0 <= i < |r|
      ensures TypeOf(r[i]) == TypeOf(a) && 1 <= Length(r[i]) <= k && (i < |r| - 1 ==> Length(r[i]) == k)
    {
      assert Length(r[i]) == Pieces(Length(a), k)[i];
    }
  }

  /** The chunks hold the array's slots from `off` on, in order. */
  lemma {:induction false} SplitFromElements<V>(a: Array<V>, off: nat, k: nat)
    requires WellFormed(a) && off <= Length(a) && k >= 1
    ensures ConcatElements(SplitFrom(a, off, k)) == Elements(a)[off..]
    decreases Length(a) - off
  {
    if off < Length(a) {
      SplitFromElements(a, off + Min(k, Length(a) - off), k);
      SliceElements(a, off, Min(k, Length(a) - off));
      SplitFromCons(a, off, k);
    }
  }

  /** The step of `SplitFromElements`: the first slice's slots followed by
      the rest's are the array's slots from `off` on. */
  lemma SplitFromCons<V>(a: Array<V>, off: nat, k: nat)
    requires WellFormed(a) && off < Length(a) && k >= 1
    requires ConcatElements(SplitFrom(a, off + Min(k, Length(a) - off), k))
          == Elements(a)[off + Min(k, Length(a) - off)..]
    requires Elements(Slice(a, off, Min(k, Length(a) - off)))
          == Elements(a)[off..off + Min(k, Length(a) - off)]
    ensures ConcatElements(SplitFrom(a, off, k)) == Elements(a)[off..]
  {
    SplitFromUnfold(a, off, k);
    JoinChunks(SplitFrom(a, off, k), Slice(a, off, Min(k, Length(a) - off)),
               SplitFrom(a, off + Min(k, Length(a) - off), k), Elements(a), off, off + Min(k, Length(a) - off));
  }

  lemma SplitFromUnfold<V>(a: Array<V>, off: nat, k: nat)
    requires WellFormed(a) && off < Length(a) && k >= 1
    ensures SplitFrom(a, off, k)
         == [Slice(a, off, Min(k, Length(a) - off))] + SplitFrom(a, off + Min(k, Length(a) - off), k)
  {
  }

  /** A chunk holding `e[lo..mid]` followed by chunks holding `e[mid..]`
      hold `e[lo..]`. */
  lemma JoinChunks<V>(r: seq<Array<V>>, c: Array<V>, cs: seq<Array<V>>, e: seq<Value<V>>, lo: nat, mid: nat)
    requires WellFormed(c) && AllWellFormed(cs) && r == [c] + cs
    requires lo <= mid <= |e| && Elements(c) == e[lo..mid] && ConcatElements(cs) == e[mid..]
    ensures AllWellFormed(r) && ConcatElements(r) == e[lo..]
  {
    assert r[0] == c && r[1..] == cs;
    assert e[lo..] == e[lo..mid] + e[mid..];
  }

  /** Bind after split gives back the array's contents (the round trip of
      tests/array/src/bind.cpp:52-60), for every type the bind visitor
      handles. An empty array splits into no chunks and binds to no array. */
  lemma SplitBind<V>(a: Array<V>, k: nat)
    requires WellFormed(a) && k >= 1 && Bindable(TypeOf(a))
    ensures Length(a) == 0 ==> Bind(Split(a, k)) == Success(None)
    ensures Length(a) > 0 ==>
              && Bind(Split(a, k)).Success?
              && Bind(Split(a, k)).value.Some?
              && TypeOf(Bind(Split(a, k)).value.value) == TypeOf(a)
              && Elements(Bind(Split(a, k)).value.value) == Elements(a)
  {
    var r := Split(a, k);
    SplitChunks(a, k);
    SplitFromElements(a, 0, k);
    assert Elements(a)[0..] == Elements(a);
    if Length(a) == 0 {
      assert r == [];
    } else {
      assert r != [];
      if |r| >= 2 {
        assert SameType(r);
        BindSucceeds(r);
      }
      BindElements(r);
    }
  }

  /** An array no longer than `k` is one chunk, the array itself, and bind
      returns it unchanged. */
  lemma SplitBindShort<V>(a: Array<V>, k: nat)
    requires WellFormed(a) && k >= 1 && 0 < Length(a) <= k
    ensures Split(a, k) == [a]
    ensures Bind(Split(a, k)) == Success(Some(a))
  {
    SliceWhole(a);
    assert SplitFrom(a, Length(a), k) == [];
  }
}
