/** Offset arithmetic of list arrays, on plain integer sequences.

    A list array of `n` slots stores `n + 1` offsets `p`; slot `i` spans
    `[p[i], p[i+1])` of the child. The list visit of bind rebases the offsets
    of each chunk onto a running sum; this module states what that produces,
    independently of the arrays the offsets come from. */
module Offsets {

  predicate Monotone(s: seq<int>) {
    forall i, j :: 0 <= i <= j < |s| ==> s[i] <= s[j]
  }

  /** Offsets lists of list chunks: each holds at least the leading offset. */
  predicate NonEmpty(ps: seq<seq<int>>) {
    forall i :: 0 <= i < |ps| ==> |ps[i]| >= 1
  }

  /** Offsets lists that are also non-decreasing. */
  predicate Runs(ps: seq<seq<int>>) {
    NonEmpty(ps) && forall i :: 0 <= i < |ps| ==> Monotone(ps[i])
  }

  /** The width of child a list references: `p[n] - p[0]`. */
  function Width(p: seq<int>): int
    requires |p| >= 1
  {
    p[|p| - 1] - p[0]
  }

  /** The number of slots of all the lists. */
  function Slots(ps: seq<seq<int>>): nat
    requires NonEmpty(ps)
  {
    if ps == [] then 0 else |ps[0]| - 1 + Slots(ps[1..])
  }

  function WidthSum(ps: seq<seq<int>>): int
    requires NonEmpty(ps)
  {
    if ps == [] then 0 else Width(ps[0]) + WidthSum(ps[1..])
  }

  /** The offsets the list visit writes for one chunk `p` when the running
      sum is `u` on entry: `u + p[i+1] - p[0]` for each slot `i`. */
  function RebasedTail(p: seq<int>, u: int): (r: seq<int>)
    requires |p| >= 1
    ensures |r| == |p| - 1
  {
    seq(|p| - 1, i requires 0 <= i < |p| - 1 => u + p[i + 1] - p[0])
  }

  /** The offsets written for all the chunks after the running sum `u`. */
  function Rebase(u: int, ps: seq<seq<int>>): (r: seq<int>)
    requires NonEmpty(ps)
    ensures |r| == Slots(ps)
    decreases |ps|
  {
    if ps == [] then []
    else RebasedTail(ps[0], u) + Rebase(u + Width(ps[0]), ps[1..])
  }

  /** Consecutive differences: the slot lengths a sequence of offsets gives. */
  function Diffs(s: seq<int>): (r: seq<int>)
    requires |s| >= 1
    ensures |r| == |s| - 1
  {
    seq(|s| - 1, i requires 0 <= i < |s| - 1 => s[i + 1] - s[i])
  }

  /** The slot lengths of all the lists, in order. */
  function ConcatDiffs(ps: seq<seq<int>>): seq<int>
    requires NonEmpty(ps)
  {
    if ps == [] then [] else Diffs(ps[0]) + ConcatDiffs(ps[1..])
  }

  // ---------------------------------------------------------------------

  lemma MonotoneJoin(a: seq<int>, b: seq<int>)
    requires |a| >= 1 && |b| >= 1 && a[|a| - 1] == b[0]
    requires Monotone(a) && Monotone(b)
    ensures Monotone(a + b[1..])
    ensures (a + b[1..])[|a| + |b| - 2] == b[|b| - 1]
  {
    var s := a + b[1..];
    forall i, j | 0 <= i <= j < |s| ensures s[i] <= s[j] {
      if j >= |a| {
        if i >= |a| {
          assert s[i] == b[i - |a| + 1] && s[j] == b[j - |a| + 1];
        } else {
          assert s[i] == a[i] <= a[|a| - 1] == b[0] <= b[j - |a| + 1] == s[j];
        }
      }
    }
  }

  lemma RebasedMonotone(p: seq<int>, u: int)
    requires |p| >= 1 && Monotone(p)
    ensures var a := [u] + RebasedTail(p, u);
            Monotone(a) && a[|a| - 1] == u + Width(p)
  {
    var a := [u] + RebasedTail(p, u);
    forall i, j | 0 <= i <= j < |a| ensures a[i] <= a[j] {
      assert a[i] == u + p[i] - p[0] && a[j] == u + p[j] - p[0];
    }
  }

  /** One step of `Rebase`: the first list's rebased offsets joined to those
      of the rest, which start where the first list's end. */
  lemma RebaseStep(u: int, ps: seq<seq<int>>, a: seq<int>, b: seq<int>)
    requires NonEmpty(ps) && ps != []
    requires a == [u] + RebasedTail(ps[0], u)
    requires b == [u + Width(ps[0])] + Rebase(u + Width(ps[0]), ps[1..])
    ensures [u] + Rebase(u, ps) == a + b[1..]
  {
    assert b[1..] == Rebase(u + Width(ps[0]), ps[1..]);
    assert Rebase(u, ps) == RebasedTail(ps[0], u) + Rebase(u + Width(ps[0]), ps[1..]);
  }

  /** The offsets written from running sum `u` start at `u`, never decrease,
      and end at `u` plus the total referenced width. */
  lemma {:induction false} RebaseShape(u: int, ps: seq<seq<int>>)
    requires Runs(ps)
    ensures Monotone([u] + Rebase(u, ps))
    ensures ([u] + Rebase(u, ps))[Slots(ps)] == u + WidthSum(ps)
    decreases |ps|
  {
    if ps != [] {
      RunsTail(ps);
      RebaseShape(u + Width(ps[0]), ps[1..]);
      ShapeCons(u, ps);
    }
  }

  lemma RunsTail(ps: seq<seq<int>>)
    requires Runs(ps) && ps != []
    ensures Runs(ps[1..]) && |ps[0]| >= 1 && Monotone(ps[0])
  {
    forall i | 0 <= i < |ps| - 1 ensures |ps[1..][i]| >= 1 && Monotone(ps[1..][i]) {
      assert ps[1..][i] == ps[i + 1];
    }
  }

  /** The step of `RebaseShape`. */
  lemma ShapeCons(u: int, ps: seq<seq<int>>)
    requires NonEmpty(ps) && ps != [] && Monotone(ps[0])
    requires Monotone([u + Width(ps[0])] + Rebase(u + Width(ps[0]), ps[1..]))
    requires ([u + Width(ps[0])] + Rebase(u + Width(ps[0]), ps[1..]))[Slots(ps[1..])] == u + WidthSum(ps)
    ensures Monotone([u] + Rebase(u, ps))
    ensures ([u] + Rebase(u, ps))[Slots(ps)] == u + WidthSum(ps)
  {
    RebaseStep(u, ps, [u] + RebasedTail(ps[0], u), [u + Width(ps[0])] + Rebase(u + Width(ps[0]), ps[1..]));
    RebasedMonotone(ps[0], u);
    JoinRuns([u] + Rebase(u, ps), [u] + RebasedTail(ps[0], u),
             [u + Width(ps[0])] + Rebase(u + Width(ps[0]), ps[1..]), u + WidthSum(ps));
  }

  /** Two non-decreasing runs that meet end to start join into one, which
      ends where the second does. */
  lemma JoinRuns(s: seq<int>, a: seq<int>, b: seq<int>, last: int)
    requires |a| >= 1 && |b| >= 1 && a[|a| - 1] == b[0] && s == a + b[1..]
    requires Monotone(a) && Monotone(b) && b[|b| - 1] == last
    ensures Monotone(s) && s[|s| - 1] == last
  {
    MonotoneJoin(a, b);
  }

  lemma DiffsJoin(a: seq<int>, b: seq<int>)
    requires |a| >= 1 && |b| >= 1 && a[|a| - 1] == b[0]
    ensures Diffs(a + b[1..]) == Diffs(a) + Diffs(b)
  {
    var s := a + b[1..];
    forall i | 0 <= i < |s| - 1 ensures Diffs(s)[i] == (Diffs(a) + Diffs(b))[i] {
      if i < |a| - 1 {
        assert s[i] == a[i] && s[i + 1] == a[i + 1];
      } else {
        assert s[i] == b[i - |a| + 1] && s[i + 1] == b[i - |a| + 2];
      }
    }
  }

  lemma RebasedDiffs(p: seq<int>, u: int)
    requires |p| >= 1
    ensures Diffs([u] + RebasedTail(p, u)) == Diffs(p)
    ensures ([u] + RebasedTail(p, u))[|p| - 1] == u + Width(p)
  {
    var a := [u] + RebasedTail(p, u);
    forall i | 0 <= i < |p| - 1 ensures Diffs(a)[i] == Diffs(p)[i] {
      assert a[i] == u + p[i] - p[0] && a[i + 1] == u + p[i + 1] - p[0];
    }
  }

  /** Rebasing keeps every slot's length: the written offsets give the slot
      lengths of the lists, in order. */
  lemma {:induction false} RebaseDiffs(u: int, ps: seq<seq<int>>)
    requires NonEmpty(ps)
    ensures Diffs([u] + Rebase(u, ps)) == ConcatDiffs(ps)
    decreases |ps|
  {
    if ps != [] {
      RebaseDiffs(u + Width(ps[0]), ps[1..]);
      DiffsCons(u, ps);
    }
  }

  /** The step of `RebaseDiffs`. */
  lemma DiffsCons(u: int, ps: seq<seq<int>>)
    requires NonEmpty(ps) && ps != []
    requires Diffs([u + Width(ps[0])] + Rebase(u + Width(ps[0]), ps[1..])) == ConcatDiffs(ps[1..])
    ensures Diffs([u] + Rebase(u, ps)) == ConcatDiffs(ps)
  {
    RebaseStep(u, ps, [u] + RebasedTail(ps[0], u), [u + Width(ps[0])] + Rebase(u + Width(ps[0]), ps[1..]));
    RebasedDiffs(ps[0], u);
    JoinDiffs([u] + Rebase(u, ps), [u] + RebasedTail(ps[0], u),
              [u + Width(ps[0])] + Rebase(u + Width(ps[0]), ps[1..]), Diffs(ps[0]), ConcatDiffs(ps[1..]));
  }

  lemma JoinDiffs(s: seq<int>, a: seq<int>, b: seq<int>, x: seq<int>, y: seq<int>)
    requires |a| >= 1 && |b| >= 1 && a[|a| - 1] == b[0] && s == a + b[1..]
    requires Diffs(a) == x && Diffs(b) == y
    ensures Diffs(s) == x + y
  {
    DiffsJoin(a, b);
  }

  lemma {:induction false} WidthSumAppend(ps: seq<seq<int>>, p: seq<int>)
    requires NonEmpty(ps) && |p| >= 1
    ensures NonEmpty(ps + [p])
    ensures WidthSum(ps + [p]) == WidthSum(ps) + Width(p)
    ensures Slots(ps + [p]) == Slots(ps) + |p| - 1
  {
    if ps == [] {
      assert [p][1..] == [];
    } else {
      assert (ps + [p])[1..] == ps[1..] + [p];
      WidthSumAppend(ps[1..], p);
    }
  }

  /** Appending one list appends its rebased offsets, from the running sum
      the lists before it end at. */
  lemma {:induction false} RebaseAppend(u: int, ps: seq<seq<int>>, p: seq<int>)
    requires NonEmpty(ps) && |p| >= 1
    ensures NonEmpty(ps + [p])
    ensures Rebase(u, ps + [p]) == Rebase(u, ps) + RebasedTail(p, u + WidthSum(ps))
    decreases |ps|
  {
    assert NonEmpty(ps + [p]);
    if ps == [] {
      assert [p][1..] == [];
      assert Rebase(u + Width(p), []) == [];
    } else {
      var u' := u + Width(ps[0]);
      var head := RebasedTail(ps[0], u);
      assert Rebase(u, ps + [p]) == head + Rebase(u', ps[1..] + [p]) by {
        assert (ps + [p])[1..] == ps[1..] + [p];
        assert (ps + [p])[0] == ps[0];
      }
      assert Rebase(u', ps[1..] + [p]) == Rebase(u', ps[1..]) + RebasedTail(p, u' + WidthSum(ps[1..])) by {
        RebaseAppend(u', ps[1..], p);
      }
      assert u' + WidthSum(ps[1..]) == u + WidthSum(ps);
      assert Rebase(u, ps) == head + Rebase(u', ps[1..]);
    }
  }

  lemma {:induction false} SlotsPrefix(ps: seq<seq<int>>, k: nat)
    requires NonEmpty(ps) && k <= |ps|
    ensures NonEmpty(ps[..k]) && Slots(ps[..k]) <= Slots(ps)
  {
    if k > 0 {
      assert ps[..k][1..] == ps[1..][..k - 1];
      SlotsPrefix(ps[1..], k - 1);
    }
  }

  /** What a loop over the lists needs when it moves past list `k`. */
  lemma PrefixStep(ps: seq<seq<int>>, k: nat)
    requires NonEmpty(ps) && k < |ps|
    ensures NonEmpty(ps[..k]) && NonEmpty(ps[..k + 1])
    ensures Slots(ps[..k + 1]) == Slots(ps[..k]) + |ps[k]| - 1 <= Slots(ps)
    ensures WidthSum(ps[..k + 1]) == WidthSum(ps[..k]) + Width(ps[k])
    ensures Rebase(0, ps[..k + 1]) == Rebase(0, ps[..k]) + RebasedTail(ps[k], WidthSum(ps[..k]))
  {
    assert ps[..k + 1] == ps[..k] + [ps[k]];
    SlotsPrefix(ps, k + 1);
    WidthSumAppend(ps[..k], ps[k]);
    RebaseAppend(0, ps[..k], ps[k]);
  }
}
