// The Monte Carlo estimator: `countPoints` counts how many sampled points
// fall inside the unit circle, `singleThreadedExecution` stores one count
// in the globals `in`/`total`, and `multiThreadedExecution` splits
// 100000000 samples over `num_threads` workers and adds their counts to the
// same globals. The random generator is replaced by the points it would
// produce, given as input; the `float` circle test is evaluated over `real`.
module MonteCarlo {
  import opened Partitioner
  import opened Aggregate

  /** The sample count of both passes. */
  const Samples: int := 100000000

  const IntMax: int := 0x7fff_ffff

  /** C++ `int`. Storing a value outside this range would be signed overflow. */
  type int32 = x: int | -0x8000_0000 <= x <= IntMax

  datatype Point = Point(x: real, y: real)

  /** The point lies strictly inside the unit circle: its squared distance from the origin is below 1. */
  predicate InsideCircle(p: Point)
  {
    p.x * p.x + p.y * p.y < 1.0
  }

  /** The number of points inside the circle; never more than the number of points. */
  function CountInside(points: seq<Point>): (c: nat)
    ensures c <= |points|
  {
    if points == [] then 0
    else CountInside(points[..|points| - 1]) + (if InsideCircle(points[|points| - 1]) then 1 else 0)
  }

  /** Counting a concatenation counts each part. */
  lemma {:induction false} CountInsideAppend(a: seq<Point>, b: seq<Point>)
    ensures CountInside(a + b) == CountInside(a) + CountInside(b)
    decreases |b|
  {
    if b == [] {
      assert a + b == a;
    } else {
      assert (a + b)[..|a + b| - 1] == a + b[..|b| - 1];
      CountInsideAppend(a, b[..|b| - 1]);
    }
  }

  /** How many points the loop `for (int i = 0; i < number; ++i)` draws: none for a negative `number`. */
  function Drawn(number: int): nat
  {
    if number < 0 then 0 else number
  }

  /**
   * `countPoints(number, local_in, local_total)`. The two reference
   * parameters are the two results: both are overwritten, so whatever they
   * held before the call does not matter. `points` are the points the
   * generator would return, in order.
   */
  method CountPoints(number: int32, points: seq<Point>) returns (localIn: int32, localTotal: int32)
    requires Drawn(number) <= |points|
    ensures localIn == CountInside(points[..Drawn(number)])
    ensures 0 <= localIn <= Drawn(number)
    ensures localTotal == number
  {
    localIn := 0;
    var i: int32 := 0;
    while i < number
      invariant 0 <= i <= Drawn(number)
      invariant localIn == CountInside(points[..i])
    {
      assert points[..i + 1][..i] == points[..i];
      if InsideCircle(points[i]) {
        localIn := localIn + 1;
      }
      i := i + 1;
    }
    localTotal := number;
  }

  /** The hits of all workers, each counting the first `perThread` points of its own stream. */
  function TotalHits(streams: seq<seq<Point>>, perThread: nat): (h: nat)
    requires forall k :: 0 <= k < |streams| ==> perThread <= |streams[k]|
    ensures h <= |streams| * perThread
  {
    if streams == [] then 0
    else
      var n := |streams|;
      assert n * perThread == (n - 1) * perThread + perThread;
      TotalHits(streams[..n - 1], perThread) + CountInside(streams[n - 1][..perThread])
  }

  /** Counting does not depend on the order of the points. */
  lemma {:induction false} CountInsidePermutation(a: seq<Point>, b: seq<Point>)
    requires multiset(a) == multiset(b)
    ensures CountInside(a) == CountInside(b)
    decreases |a|
  {
    if a == [] {
      assert |b| == |multiset(b)| == 0;
    } else {
      var x := a[|a| - 1];
      var a' := a[..|a| - 1];
      assert a == a' + [x];
      assert x in multiset(b);
      var p :| 0 <= p < |b| && b[p] == x;
      assert b == b[..p] + [x] + b[p + 1..];
      RemoveAt(b, p);
      CountInsidePermutation(a', b[..p] + b[p + 1..]);
      CountInsideAppend(b[..p] + [x], b[p + 1..]);
      CountInsideAppend(b[..p], [x]);
      CountInsideAppend(b[..p], b[p + 1..]);
      assert CountInside([x]) == CountInside([x][..0]) + (if InsideCircle(x) then 1 else 0);
    }
  }

  /** The points all workers count, worker after worker: the first `perThread` points of each stream. */
  function Taken(streams: seq<seq<Point>>, perThread: nat): (t: seq<Point>)
    requires forall k :: 0 <= k < |streams| ==> perThread <= |streams[k]|
    ensures |t| == |streams| * perThread
  {
    if streams == [] then []
    else
      var n := |streams|;
      assert n * perThread == (n - 1) * perThread + perThread;
      Taken(streams[..n - 1], perThread) + streams[n - 1][..perThread]
  }

  /** The workers' hits are the hits among the points they take together. */
  lemma {:induction false} TotalHitsTaken(streams: seq<seq<Point>>, perThread: nat)
    requires forall k :: 0 <= k < |streams| ==> perThread <= |streams[k]|
    ensures TotalHits(streams, perThread) == CountInside(Taken(streams, perThread))
  {
    if streams != [] {
      var n := |streams|;
      TotalHitsTaken(streams[..n - 1], perThread);
      CountInsideAppend(Taken(streams[..n - 1], perThread), streams[n - 1][..perThread]);
    }
  }

  /**
   * All workers draw from one generator, so each worker's points are some
   * subset of the generator's `draws`, interleaved with the others' in an
   * order the scheduler picks. Whatever that interleaving, as long as every
   * draw goes to exactly one worker, the workers find as many hits as one
   * pass over the draws.
   */
  lemma SplitCountsAgree(draws: seq<Point>, streams: seq<seq<Point>>, perThread: nat)
    requires forall k :: 0 <= k < |streams| ==> perThread <= |streams[k]|
    requires multiset(Taken(streams, perThread)) == multiset(draws)
    ensures TotalHits(streams, perThread) == CountInside(draws)
  {
    TotalHitsTaken(streams, perThread);
    CountInsidePermutation(Taken(streams, perThread), draws);
  }

  /** The estimate of pi, four times the share of hits among the samples, over `real`: it lies between 0 and 4. */
  function Estimate(inside: int, total: int): (e: real)
    requires 0 <= inside <= total && 0 < total
    ensures 0.0 <= e <= 4.0
  {
    4.0 * (inside as real / total as real)
  }

  /**
   * A worker thread of `multiThreadedExecution`: `countPoints(per_thread,
   * local_ins[i], local_totals[i])` writes those two slots and no other.
   */
  method RunWorker(localIns: array<int32>, localTotals: array<int32>, i: nat, perThread: int32, points: seq<Point>)
    requires localIns != localTotals
    requires i < localIns.Length == localTotals.Length
    requires 0 <= perThread <= |points|
    modifies localIns, localTotals
    ensures localIns[i] == CountInside(points[..perThread]) && localTotals[i] == perThread
    ensures forall k :: 0 <= k < localIns.Length && k != i ==> localIns[k] == old(localIns[k])
    ensures forall k :: 0 <= k < localTotals.Length && k != i ==> localTotals[k] == old(localTotals[k])
  {
    localIns[i], localTotals[i] := CountPoints(perThread, points);
  }

  /** `per_thread`: each of `w` workers draws `Samples / w` points, and all of them together draw no more than `Samples`. */
  function PerThread(w: int): (p: nat)
    requires w > 0
    ensures p <= Samples && p * w <= Samples
  {
    Truncation(Samples, w);
    Samples / w
  }

  /** Spawns one worker per stream and joins them: afterwards slot `k` holds worker `k`'s counts. */
  method RunWorkers(localIns: array<int32>, localTotals: array<int32>, perThread: int32, streams: seq<seq<Point>>)
    requires localIns != localTotals
    requires localIns.Length == localTotals.Length == |streams|
    requires 0 <= perThread && forall k :: 0 <= k < |streams| ==> perThread <= |streams[k]|
    modifies localIns, localTotals
    ensures forall k :: 0 <= k < |streams| ==> localIns[k] == CountInside(streams[k][..perThread])
    ensures forall k :: 0 <= k < |streams| ==> localTotals[k] == perThread
  {
    for i := 0 to |streams|
      invariant forall k :: 0 <= k < i ==> localIns[k] == CountInside(streams[k][..perThread])
      invariant forall k :: 0 <= k < i ==> localTotals[k] == perThread
    {
      RunWorker(localIns, localTotals, i, perThread, streams[i]);
    }
  }

  /** The program's global state: the counters `in` (here `inside`) and `total`. */
  class Program {
    var inside: int32
    var total: int32

    /** Both globals start at zero. */
    constructor ()
      ensures inside == 0 && total == 0
    {
      inside, total := 0, 0;
    }

    /** `singleThreadedExecution`: one pass over `Samples` points overwrites both globals. */
    method SingleThreadedExecution(points: seq<Point>)
      requires Samples <= |points|
      modifies this
      ensures inside == CountInside(points[..Samples]) && total == Samples
    {
      inside, total := CountPoints(Samples, points);
    }

    /**
     * `multiThreadedExecution`: each of `numThreads` workers counts
     * `Samples / numThreads` points of its own stream into its own slots;
     * after the join the slots are added to the globals. The precondition on
     * the globals is what keeps the additions free of `int` overflow.
     */
    method MultiThreadedExecution(numThreads: int32, streams: seq<seq<Point>>)
      requires 0 < numThreads && |streams| == numThreads
      requires forall k :: 0 <= k < |streams| ==> PerThread(numThreads) <= |streams[k]|
      requires 0 <= inside <= total <= IntMax - Samples
      modifies this
      ensures total == old(total) + PerThread(numThreads) * numThreads
      ensures inside == old(inside) + TotalHits(streams, PerThread(numThreads))
      ensures 0 <= inside <= total
    {
      var perThread: int32 := PerThread(numThreads);
      var localIns := new int32[numThreads];
      var localTotals := new int32[numThreads];
      RunWorkers(localIns, localTotals, perThread, streams);
      AddSlots(localIns, localTotals, perThread, streams);
    }

    /**
     * The aggregation loop of `multiThreadedExecution`: `in += local_ins[i]`
     * and `total += local_totals[i]` for every worker, in order.
     */
    method AddSlots(localIns: array<int32>, localTotals: array<int32>, perThread: int32, streams: seq<seq<Point>>)
      requires 0 < localIns.Length == localTotals.Length == |streams|
      requires perThread == PerThread(|streams|)
      requires forall k :: 0 <= k < |streams| ==> perThread <= |streams[k]|
      requires forall k :: 0 <= k < |streams| ==> localIns[k] == CountInside(streams[k][..perThread])
      requires forall k :: 0 <= k < |streams| ==> localTotals[k] == perThread
      requires 0 <= inside <= total <= IntMax - Samples
      modifies this
      ensures total == old(total) + perThread * |streams|
      ensures inside == old(inside) + TotalHits(streams, perThread)
      ensures 0 <= inside <= total
    {
      var n := |streams|;
      for i := 0 to n
        invariant inside == old(inside) + TotalHits(streams[..i], perThread)
        invariant total == old(total) + i * perThread
        invariant 0 <= inside <= total
      {
        MulMonotone(i + 1, n, perThread);
        assert streams[..i + 1][..i] == streams[..i];
        assert TotalHits(streams[..i + 1], perThread) <= (i + 1) * perThread;
        inside := inside + localIns[i];
        total := total + localTotals[i];
      }
      assert streams[..n] == streams;
    }

    /**
     * `main`: the single-threaded pass, then the multithreaded pass added on
     * top. At most 2 * 10^8 samples are counted, which fits in `int`, and
     * `total` is positive, so the final estimate is defined.
     */
    method Run(single: seq<Point>, numThreads: int32, streams: seq<seq<Point>>) returns (estimate: real)
      requires Samples <= |single|
      requires 0 < numThreads && |streams| == numThreads
      requires forall k :: 0 <= k < |streams| ==> PerThread(numThreads) <= |streams[k]|
      modifies this
      ensures total == Samples + PerThread(numThreads) * numThreads <= 2 * Samples
      ensures inside == CountInside(single[..Samples]) + TotalHits(streams, PerThread(numThreads))
      ensures 0 <= inside <= total
      ensures estimate == Estimate(inside, total)
    {
      SingleThreadedExecution(single);
      MultiThreadedExecution(numThreads, streams);
      estimate := Estimate(inside, total);
    }
  }
}
