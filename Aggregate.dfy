// Combining the per-worker partial sums. Three backends sort the partials in
// descending order in place and fold them left to right
// (`std::sort(..., greater)` then `std::accumulate(..., 0.0)`); the policy
// backends hand them to `std::transform_reduce(policy, ..., 0.0, plus)`,
// which may combine them in any order and grouping. Over `real` all of
// these give the same value, which the lemmas here prove.
module Aggregate {

  /** The left-to-right fold `((0 + s[0]) + s[1]) + ...` that `std::accumulate` performs. */
  function Sum(s: seq<real>): real
  {
    if s == [] then 0.0 else Sum(s[..|s| - 1]) + s[|s| - 1]
  }

  /** Folding a concatenation equals adding the folds of its parts (regrouping is harmless). */
  lemma {:induction false} SumConcat(a: seq<real>, b: seq<real>)
    ensures Sum(a + b) == Sum(a) + Sum(b)
    decreases |b|
  {
    if b == [] {
      assert a + b == a;
    } else {
      assert (a + b)[..|a + b| - 1] == a + b[..|b| - 1];
      SumConcat(a, b[..|b| - 1]);
    }
  }

  /** Any reordering of the partials has the same sum (reordering is harmless). */
  lemma {:induction false} SumPermutation(a: seq<real>, b: seq<real>)
    requires multiset(a) == multiset(b)
    ensures Sum(a) == Sum(b)
    decreases |a|
  {
    if a == [] {
      assert |b| == |multiset(b)| == 0;
    } else {
      var x := a[|a| - 1];
      var a' := a[..|a| - 1];
      assert a == a' + [x];
      assert x in multiset(b);
      var p :| 0 <= p < |b| && b[p] == x;
      var b' := b[..p] + b[p + 1..];
      assert b == b[..p] + [x] + b[p + 1..];
      RemoveAt(b, p);
      SumPermutation(a', b');
      SumConcat(b[..p] + [x], b[p + 1..]);
      SumConcat(b[..p], [x]);
      SumConcat(b[..p], b[p + 1..]);
      assert Sum([x]) == x by {
        assert [x][..0] == [];
      }
    }
  }

  /** `std::greater` order: every element is at least as large as every later one. */
  predicate Descending(s: seq<real>)
  {
    forall k, l :: 0 <= k < l < |s| ==> s[k] >= s[l]
  }

  /** Exchanges two slots and leaves every other slot as it was. */
  method Swap(a: array<real>, i: nat, j: nat)
    requires i < a.Length && j < a.Length
    modifies a
    ensures a[i] == old(a[j]) && a[j] == old(a[i])
    ensures forall k :: 0 <= k < a.Length && k != i && k != j ==> a[k] == old(a[k])
    ensures multiset(a[..]) == multiset(old(a[..]))
  {
    a[i], a[j] := a[j], a[i];
  }

  /** Moves `a[i]` left past every smaller element, so that `a[..i+1]` is descending. */
  method InsertDescending(a: array<real>, i: nat)
    requires i < a.Length && Descending(a[..i])
    modifies a
    ensures Descending(a[..i + 1])
    ensures multiset(a[..]) == multiset(old(a[..]))
  {
    var j := i;
    while j > 0 && a[j - 1] < a[j]
      invariant 0 <= j <= i
      invariant forall k, l :: 0 <= k < l <= i && k != j && l != j ==> a[k] >= a[l]
      invariant forall l :: j < l <= i ==> a[j] >= a[l]
      invariant multiset(a[..]) == multiset(old(a[..]))
    {
      Swap(a, j - 1, j);
      j := j - 1;
    }
  }

  /** `std::sort(sums.begin(), sums.end(), greater)`: an insertion sort in place. */
  method SortDescending(a: array<real>)
    modifies a
    ensures Descending(a[..])
    ensures multiset(a[..]) == multiset(old(a[..]))
  {
    for i := 0 to a.Length
      invariant Descending(a[..i])
      invariant multiset(a[..]) == multiset(old(a[..]))
    {
      InsertDescending(a, i);
    }
    assert a[..a.Length] == a[..];
  }

  /** `std::accumulate` with initial value 0.0: adds the slots one by one, from first to last. */
  method Accumulate(a: array<real>) returns (total: real)
    ensures total == Sum(a[..])
  {
    total := 0.0;
    for k := 0 to a.Length
      invariant total == Sum(a[..k])
    {
      assert a[..k + 1][..k] == a[..k];
      total := total + a[k];
    }
    assert a[..a.Length] == a[..];
  }

  /** The sort-then-accumulate aggregation: it reorders the slots and returns the sum of what they held before. */
  method SortedAccumulate(sums: array<real>) returns (total: real)
    modifies sums
    ensures Descending(sums[..])
    ensures multiset(sums[..]) == multiset(old(sums[..]))
    ensures total == Sum(old(sums[..]))
  {
    SortDescending(sums);
    total := Accumulate(sums);
    SumPermutation(sums[..], old(sums[..]));
  }

  /** The indices 0, 1, ..., n-1 of `n` futures. */
  function Indices(n: nat): (r: seq<nat>)
    ensures |r| == n
  {
    seq(n, i requires 0 <= i < n => i)
  }

  /** The value at index `i`, or the initial value 0.0 when `i` is out of range. */
  function At(v: seq<real>, i: nat): real
  {
    if i < |v| then v[i] else 0.0
  }

  /** The values visited in the order the indices are listed. */
  function Gather(v: seq<real>, order: seq<nat>): (r: seq<real>)
    ensures |r| == |order|
  {
    seq(|order|, k requires 0 <= k < |order| => At(v, order[k]))
  }

  /** Dropping the element at position `p` removes one copy of it from the multiset. */
  lemma RemoveAt<T>(s: seq<T>, p: nat)
    requires p < |s|
    ensures multiset(s[..p] + s[p + 1..]) == multiset(s) - multiset{s[p]}
  {
    assert s == s[..p] + [s[p]] + s[p + 1..];
  }

  /** Indices below `m` read the same values from `v` and from its prefix of length `m`. */
  lemma GatherPrefix(v: seq<real>, m: nat, order: seq<nat>)
    requires m <= |v|
    requires forall k :: 0 <= k < |order| ==> order[k] < m
    ensures Gather(v[..m], order) == Gather(v, order)
  {
  }

  /** A permutation of the indices below `m` lists only indices below `m`. */
  lemma PermutationBounded(order: seq<nat>, m: nat)
    requires multiset(order) == multiset(Indices(m))
    ensures forall k :: 0 <= k < |order| ==> order[k] < m
  {
    forall k | 0 <= k < |order|
      ensures order[k] < m
    {
      assert order[k] in multiset(order);
      assert order[k] in Indices(m);
    }
  }

  /** Visiting every index exactly once, in any order, visits the same multiset of values. */
  lemma {:induction false} GatherPermutation(v: seq<real>, order: seq<nat>)
    requires multiset(order) == multiset(Indices(|v|))
    ensures multiset(Gather(v, order)) == multiset(v)
    decreases |v|
  {
    if v == [] {
      assert |order| == |multiset(order)| == 0;
    } else {
      var m := |v| - 1;
      assert m in multiset(order) by {
        assert Indices(|v|)[m] == m;
      }
      var p :| 0 <= p < |order| && order[p] == m;
      var order' := order[..p] + order[p + 1..];
      assert multiset(order') == multiset(Indices(m)) by {
        RemoveAt(order, p);
        assert Indices(|v|) == Indices(m) + [m];
      }
      PermutationBounded(order', m);
      GatherPermutation(v[..m], order');
      GatherPrefix(v, m, order');
      GatherRemove(v, order, p);
    }
  }

  /** Reading one more index `p` adds that one value to the multiset read. */
  lemma GatherRemove(v: seq<real>, order: seq<nat>, p: nat)
    requires p < |order| && order[p] == |v| - 1
    requires multiset(Gather(v, order[..p] + order[p + 1..])) == multiset(v[..|v| - 1])
    ensures multiset(Gather(v, order)) == multiset(v)
  {
    var g := Gather(v, order);
    assert Gather(v, order[..p] + order[p + 1..]) == g[..p] + g[p + 1..];
    RemoveAt(g, p);
    assert v == v[..|v| - 1] + [v[|v| - 1]];
  }

  /**
   * How a parallel reduction combines the transformed futures: a binary tree
   * whose leaves are the initial value 0.0 or one future's value, and whose
   * inner nodes are `plus`.
   */
  datatype Schedule = Init | Item(index: nat) | Combine(left: Schedule, right: Schedule)

  /** The future indices a schedule reads, left to right. */
  function Items(t: Schedule): seq<nat>
  {
    match t
    case Init => []
    case Item(i) => [i]
    case Combine(l, r) => Items(l) + Items(r)
  }

  /** A schedule that reads every one of `n` futures exactly once (`f.get()` may be called only once). */
  predicate ReadsEachOnce(t: Schedule, n: nat)
  {
    multiset(Items(t)) == multiset(Indices(n))
  }

  /** The value a schedule produces from the future values `v`. */
  function Reduce(t: Schedule, v: seq<real>): real
  {
    match t
    case Init => 0.0
    case Item(i) => At(v, i)
    case Combine(l, r) => Reduce(l, v) + Reduce(r, v)
  }

  /** A schedule adds up the values it reads, in its left-to-right order. */
  lemma {:induction false} ReduceFlattens(t: Schedule, v: seq<real>)
    ensures Reduce(t, v) == Sum(Gather(v, Items(t)))
  {
    match t
    case Init =>
    case Item(i) =>
      assert Gather(v, [i])[..0] == [];
    case Combine(l, r) =>
      ReduceFlattens(l, v);
      ReduceFlattens(r, v);
      assert Gather(v, Items(l) + Items(r)) == Gather(v, Items(l)) + Gather(v, Items(r));
      SumConcat(Gather(v, Items(l)), Gather(v, Items(r)));
  }

  /**
   * `std::transform_reduce(policy, ..., 0.0, plus)`: whatever order and
   * grouping the policy chooses, the result is the plain sum of the values.
   */
  lemma ReduceIsSum(t: Schedule, v: seq<real>)
    requires ReadsEachOnce(t, |v|)
    ensures Reduce(t, v) == Sum(v)
  {
    ReduceFlattens(t, v);
    GatherPermutation(v, Items(t));
    SumPermutation(Gather(v, Items(t)), v);
  }

  /** One schedule a reduction may choose: a left fold from the initial value over the futures in index order. */
  function LeftFold(n: nat): (t: Schedule)
    ensures Items(t) == Indices(n)
  {
    if n == 0 then Init
    else
      var t := Combine(LeftFold(n - 1), Item(n - 1));
      assert Indices(n) == Indices(n - 1) + [n - 1];
      t
  }

  /** The left fold reads every future exactly once, so the schedule requirement of the policy backend can be met for every `n`. */
  lemma LeftFoldReadsEachOnce(n: nat)
    ensures ReadsEachOnce(LeftFold(n), n)
  {
  }

  /** The sorted accumulate agrees with every schedule that reduces the same partials unsorted. */
  lemma SortedAgreesWithReduce(sorted: seq<real>, partials: seq<real>, t: Schedule)
    requires multiset(sorted) == multiset(partials)
    requires ReadsEachOnce(t, |partials|)
    ensures Sum(sorted) == Reduce(t, partials)
  {
    SumPermutation(sorted, partials);
    ReduceIsSum(t, partials);
  }
}
