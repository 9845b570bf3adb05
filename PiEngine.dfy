// The five multithreaded series backends of the program: raw threads with
// shared result slots, promises/futures, `std::async`, and
// `std::transform_reduce` under an execution policy (and its `par`
// instance). Threads are modelled by their net effect: one sequential step
// per worker, each writing its own slot and nothing else; the series
// workers share no other state.
module PiEngine {
  import opened Partitioner
  import opened Series
  import opened Aggregate

  /** The `std::execution` policy passed to `transform_reduce`. */
  datatype Policy = Sequenced | Parallel | ParallelUnsequenced | Unsequenced

  /** The value worker `i` produces: `CalculatePi(i*chunk, (i+1)*chunk)`. */
  function Partial(n: nat, w: nat, i: nat): real
    requires w > 0
  {
    4.0 * SeriesSum(WorkerRange(n, w, i).start, WorkerRange(n, w, i).end)
  }

  /** The partial results of all workers, in worker order. */
  function Partials(n: nat, w: nat): (ps: seq<real>)
    requires w > 0
    ensures |ps| == w
  {
    seq(w, i requires 0 <= i < w => Partial(n, w, i))
  }

  /** Extending a prefix by one element adds that element to the prefix's sum. */
  lemma PrefixStep(ps: seq<real>, k: nat, s0: real, x: real, s1: real)
    requires 0 < k <= |ps| && Sum(ps[..k - 1]) == s0 && ps[k - 1] == x && s0 + x == s1
    ensures Sum(ps[..k]) == s1
  {
    assert ps[..k][..k - 1] == ps[..k - 1];
  }

  /** The partials of the first `k` workers add up to the series over [0, k*chunk). */
  lemma {:induction false} PartialsPrefix(n: nat, w: nat, k: nat)
    requires 0 < w && k <= w
    ensures Sum(Partials(n, w)[..k]) == 4.0 * SeriesSum(0, Chunk(n, w) * k)
  {
    if k > 0 {
      var c := Chunk(n, w);
      var lo, hi := c * (k - 1), c * k;
      assert hi == lo + c;
      assert WorkerRange(n, w, k - 1) == Range(lo, hi);
      PartialsPrefix(n, w, k - 1);
      SeriesSplit(0, lo, hi);
      PrefixStep(Partials(n, w), k, 4.0 * SeriesSum(0, lo), 4.0 * SeriesSum(lo, hi), 4.0 * SeriesSum(0, hi));
    }
  }

  /** All partials together add up to the series over [0, chunk*w), the indices the partition covers. */
  lemma PartialsSum(n: nat, w: nat)
    requires w > 0
    ensures Sum(Partials(n, w)) == 4.0 * SeriesSum(0, Chunk(n, w) * w)
  {
    var ps := Partials(n, w);
    PartialsPrefix(n, w, w);
    assert ps[..w] == ps;
  }

  /** When the workers divide the iterations evenly, the partials add up to the single-threaded `CalculatePi(0, n)`. */
  lemma PartialsSumEven(n: nat, w: nat)
    requires w > 0 && n % w == 0
    ensures Sum(Partials(n, w)) == 4.0 * SeriesSum(0, n)
  {
    PartialsSum(n, w);
    EvenSplitCoversAll(n, w);
  }

  /** One worker of the thread backend: computes its range and writes `sums[i]`, leaving every other slot alone. */
  method RunWorker(sums: array<real>, n: uint64, chunk: uint64, i: nat)
    requires 0 < sums.Length && chunk == Chunk(n, sums.Length) && i < sums.Length
    modifies sums
    ensures sums[i] == Partial(n, sums.Length, i)
    ensures forall k :: 0 <= k < sums.Length && k != i ==> sums[k] == old(sums[k])
  {
    NoOverflow(n, sums.Length, i);
    var result := CalculatePi(i * chunk, (i + 1) * chunk);
    sums[i] := result;
  }

  /** Spawns the `w` workers of the thread backend; after the join every slot holds its worker's partial. */
  method FillSlots(sums: array<real>, n: uint64)
    requires 0 < sums.Length
    modifies sums
    ensures sums[..] == Partials(n, sums.Length)
  {
    var chunk := n / sums.Length;
    for i := 0 to sums.Length
      invariant forall k :: 0 <= k < i ==> sums[k] == Partial(n, sums.Length, k)
    {
      RunWorker(sums, n, chunk, i);
    }
  }

  /** The `std::async` tasks (or the `std::transform` over thread indices): one future per worker, in worker order. */
  method LaunchAsync(n: uint64, w: uint64) returns (futures: seq<real>)
    requires w > 0
    ensures futures == Partials(n, w)
  {
    var chunk := n / w;
    futures := [];
    for i := 0 to w
      invariant futures == Partials(n, w)[..i]
    {
      NoOverflow(n, w, i);
      var result := CalculatePi(i * chunk, (i + 1) * chunk);
      futures := futures + [result];
    }
  }

  /** `sums.push_back(future.get())` for every future in order: the vector holds the values in worker order. */
  method Collect(futures: seq<real>) returns (sums: array<real>)
    ensures fresh(sums) && sums[..] == futures
  {
    sums := new real[|futures|];
    for i := 0 to |futures|
      invariant sums[..i] == futures[..i]
    {
      sums[i] := futures[i];
    }
  }

  /** `CalculatePiMultithreaded`: thread-owned slots, then sort descending and accumulate. */
  method CalculatePiMultithreaded(iterations: uint64, numThreads: uint64) returns (pi: real)
    requires numThreads > 0
    ensures pi == 4.0 * SeriesSum(0, Chunk(iterations, numThreads) * numThreads)
    ensures iterations % numThreads == 0 ==> pi == 4.0 * SeriesSum(0, iterations)
  {
    var sums := new real[numThreads];
    FillSlots(sums, iterations);
    pi := SortedAccumulate(sums);
    PartialsSum(iterations, numThreads);
    if iterations % numThreads == 0 {
      PartialsSumEven(iterations, numThreads);
    }
  }

  /** `CalculatePiMultithreadedWithFutureAndPromises`: each worker sets its own promise once; the futures are read in order, sorted and accumulated. */
  method CalculatePiMultithreadedWithFutureAndPromises(iterations: uint64, numThreads: uint64) returns (pi: real)
    requires numThreads > 0
    ensures pi == 4.0 * SeriesSum(0, Chunk(iterations, numThreads) * numThreads)
    ensures iterations % numThreads == 0 ==> pi == 4.0 * SeriesSum(0, iterations)
  {
    var promises := new real[numThreads];
    FillSlots(promises, iterations);
    var sums := Collect(promises[..]);
    pi := SortedAccumulate(sums);
    PartialsSum(iterations, numThreads);
    if iterations % numThreads == 0 {
      PartialsSumEven(iterations, numThreads);
    }
  }

  /** `CalculatePiMultithreadedWithAsync`: one `std::async` task per worker; the results are read in order, sorted and accumulated. */
  method CalculatePiMultithreadedWithAsync(iterations: uint64, numThreads: uint64) returns (pi: real)
    requires numThreads > 0
    ensures pi == 4.0 * SeriesSum(0, Chunk(iterations, numThreads) * numThreads)
    ensures iterations % numThreads == 0 ==> pi == 4.0 * SeriesSum(0, iterations)
  {
    var futures := LaunchAsync(iterations, numThreads);
    var sums := Collect(futures);
    pi := SortedAccumulate(sums);
    PartialsSum(iterations, numThreads);
    if iterations % numThreads == 0 {
      PartialsSumEven(iterations, numThreads);
    }
  }

  /**
   * `CalculatePiMultithreadedWithPolicy`: the futures are reduced unsorted by
   * `std::transform_reduce(policy, ..., 0.0, plus)`. The standard lets every
   * policy combine the values in any order and grouping; `schedule` is the
   * one chosen at run time, and the result does not depend on it or on the policy.
   */
  method CalculatePiMultithreadedWithPolicy(iterations: uint64, numThreads: uint64, policy: Policy, schedule: Schedule)
    returns (pi: real)
    requires numThreads > 0
    requires ReadsEachOnce(schedule, numThreads)
    ensures pi == 4.0 * SeriesSum(0, Chunk(iterations, numThreads) * numThreads)
    ensures iterations % numThreads == 0 ==> pi == 4.0 * SeriesSum(0, iterations)
  {
    var futures := LaunchAsync(iterations, numThreads);
    pi := Reduce(schedule, futures);
    ReduceIsSum(schedule, futures);
    PartialsSum(iterations, numThreads);
    if iterations % numThreads == 0 {
      PartialsSumEven(iterations, numThreads);
    }
  }

  /** `CalculatePiMultithreadedWithSTL`: the policy backend with `std::execution::par`. */
  method CalculatePiMultithreadedWithSTL(iterations: uint64, numThreads: uint64, schedule: Schedule) returns (pi: real)
    requires numThreads > 0
    requires ReadsEachOnce(schedule, numThreads)
    ensures pi == 4.0 * SeriesSum(0, Chunk(iterations, numThreads) * numThreads)
    ensures iterations % numThreads == 0 ==> pi == 4.0 * SeriesSum(0, iterations)
  {
    pi := CalculatePiMultithreadedWithPolicy(iterations, numThreads, Parallel, schedule);
  }
}
