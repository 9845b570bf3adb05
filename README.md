# Parallel π estimation: a Dafny model of its arithmetic

The program estimates π in two ways.

- **Series.** The Leibniz series `4 · Σ (-1)^i / (2i+1)`. `CalculatePi(start, end)` sums one index range. Five backends split `iterations` indices across `numThreads` workers and combine the partial sums. Three of them use raw threads with result slots, promises/futures, or `std::async`, then sort the partials in descending order and accumulate them. The other two use `std::transform_reduce` under an execution policy.
- **Monte Carlo.** `countPoints` counts sampled points that land inside the unit circle. One pass runs on a single thread and stores its count in the global counters `in`/`total`. A second pass splits 100000000 samples across `num_threads` workers and adds their per-worker counts to the same globals.

This project models the arithmetic around that concurrency and proves the following.

- **Partition.** The work split `chunk = iterations / numThreads`, where worker `i` gets `[i*chunk, (i+1)*chunk)`, is a contiguous, disjoint cover of `[0, chunk*numThreads)`. Fewer than `numThreads` indices are dropped, and no range end can overflow `uint64_t`.
- **Additivity.** Over `real`, the series is additive on adjacent ranges. So every series backend returns exactly the series over the covered indices. When `numThreads` divides `iterations`, that equals the single-threaded `CalculatePi(0, iterations)`.
- **Aggregation.** The in-place descending sort is a permutation and is non-increasing. Summing is invariant under any reordering and regrouping. So the sorted `accumulate` and every `transform_reduce` schedule agree.
- **Monte Carlo counts.** Each worker writes only its own slots. However the shared generator's draws are shared out among the workers, as long as each draw goes to exactly one worker, the workers' hits add up to the hit count of one pass over those draws. The global counters keep `in ≤ total`, end with `total == 10^8 + (10^8 / numThreads) · numThreads ≤ 2·10^8`, and never overflow `int`.

Modules, one per component:

- `Partitioner` (Partitioner.dfy): the ranges, the truncation and the `uint64_t` bounds.
- `Series` (Series.dfy): the series terms, with the denominator `2 * i + 1` computed modulo 2^64 as `uint64_t` does, the exact sum `SeriesSum`, and the `CalculatePi` loop.
- `Aggregate` (Aggregate.dfy): `Sum` as `std::accumulate`'s left fold; the in-place insertion sort that plays `std::sort(..., greater)`; and `Schedule`, a binary tree that stands for the order and grouping `std::transform_reduce` chooses.
- `PiEngine` (PiEngine.dfy): the five series backends. Each thread is a sequential step that writes only its own slot, and the backends use no other shared state.
- `MonteCarlo` (MonteCarlo.dfy): `countPoints`, and a class `Program` whose fields are the globals `in` (named `inside`, since `in` is a Dafny keyword) and `total`, typed as 32-bit `int`.

Calculate/Calculate.cpp holds a second copy of `CountPoints` (lines 167-178) and a `SingleThreadedExecution` (lines 189-199). Both do the same as `countPoints` and `singleThreadedExecution` in Calculate/Calculate/Calculate.cpp, so `MonteCarlo.CountPoints` and `MonteCarlo.Program.SingleThreadedExecution` model both copies.

## Model

| member | source | states |
|---|---|---|
| `Partitioner.Partition` | Calculate/Calculate.cpp:49-58 | there is exactly one range per worker (the shape of each range is stated by the lemmas below) |
| `Partitioner.Truncation` | Calculate/Calculate.cpp:49 | `chunk*numThreads <= iterations`, and the dropped remainder `iterations - chunk*numThreads` is `iterations % numThreads < numThreads` (also `per_thread` at Calculate/Calculate/Calculate.cpp:56) |
| `Partitioner.RangeShape` | Calculate/Calculate.cpp:56 | each worker range has `start <= end`, holds exactly `chunk` indices, and ends no later than `chunk*numThreads <= iterations` |
| `Partitioner.NoOverflow` | Calculate/Calculate.cpp:56 | for a `uint64_t` iteration count, `i*chunk` and `(i+1)*chunk` stay below 2^64 for every worker `i` |
| `Partitioner.Contiguous` | Calculate/Calculate.cpp:52-58 | the first range starts at 0, each range ends where the next starts, and the last ends at `chunk*numThreads` |
| `Partitioner.Disjoint` | Calculate/Calculate.cpp:52-58 | for workers `i < j`, range `i` ends no later than range `j` starts, so no index belongs to both |
| `Partitioner.Covers` | Calculate/Calculate.cpp:52-58 | an index lies in some worker's range if and only if it lies in `[0, chunk*numThreads)` |
| `Partitioner.EvenSplitCoversAll` | Calculate/Calculate.cpp:49 | when `numThreads` divides `iterations`, the ranges cover all of `[0, iterations)` |
| `Partitioner.TenOnThree` | Calculate/Calculate.cpp:49-56 | 10 iterations on 3 workers give `[0,3), [3,6), [6,9)`, and index 9 is dropped |
| `Series.DenominatorOdd` | Calculate/Calculate.cpp:39 | `2 * i + 1` in `uint64_t` arithmetic is odd, so never zero, even after wrap-around; it equals `2i+1` for `i < 2^63` |
| `Series.TermAlternates` | Calculate/Calculate.cpp:38-40 | the term is positive exactly for even `i`, and equals `+1/(2i+1)` for even `i` and `-1/(2i+1)` for odd `i` |
| `Series.SeriesSplit` | Calculate/Calculate.cpp:32-43 | for `a <= b <= c`, the sums over `[a,b)` and `[b,c)` add up to the sum over `[a,c)` |
| `Series.CalculatePi` | Calculate/Calculate.cpp:32-43 | the loop returns four times the exact sum of the terms of `[start, end)`, and 0 for an empty or reversed range |
| `Aggregate.SumConcat` | Calculate/Calculate.cpp:140-141 | the sum of a concatenation is the sum of the sums of its parts, so grouping does not change the total |
| `Aggregate.SumPermutation` | Calculate/Calculate.cpp:66-67 | two sequences with the same multiset of values have the same sum, so sorting before accumulating does not change the total |
| `Aggregate.SortDescending` | Calculate/Calculate.cpp:66 | after the in-place sort the array is non-increasing and a permutation of its previous contents (also lines 94 and 118) |
| `Aggregate.Accumulate` | Calculate/Calculate.cpp:67 | the loop returns the left-to-right sum of the array, starting from 0.0 |
| `Aggregate.SortedAccumulate` | Calculate/Calculate.cpp:66-67 | sorting and then accumulating leaves the slots descending and permuted, and returns the sum of what they held before |
| `Aggregate.GatherPermutation` | Calculate/Calculate.cpp:140-141 | reading every index exactly once, in any order, reads the same multiset of values |
| `Aggregate.ReduceFlattens` | Calculate/Calculate.cpp:140-141 | a reduction tree's value is the sum of the values it reads, taken in left-to-right order |
| `Aggregate.ReduceIsSum` | Calculate/Calculate.cpp:140-141 | whatever order and grouping `transform_reduce` chooses, a reduction that reads each future exactly once returns the plain sum of the futures |
| `Aggregate.LeftFold` | Calculate/Calculate.cpp:140-141 | a left fold from the initial value reads the futures in index order |
| `Aggregate.LeftFoldReadsEachOnce` | Calculate/Calculate.cpp:140-141 | the left fold reads every future exactly once, so some schedule meets the policy backend's requirement for every worker count |
| `Aggregate.SortedAgreesWithReduce` | Calculate/Calculate.cpp:94-95 | the sorted `accumulate` of a permutation of the partials equals any `transform_reduce` schedule over the unsorted partials |
| `PiEngine.PartialsPrefix` | Calculate/Calculate.cpp:52-58 | the partials of the first `k` workers add up to the series over `[0, k*chunk)` |
| `PiEngine.PartialsSum` | Calculate/Calculate.cpp:56-67 | all partials add up to the series over `[0, chunk*numThreads)` |
| `PiEngine.PartialsSumEven` | Calculate/Calculate.cpp:49-67 | when `numThreads` divides `iterations`, the partials add up to the single-threaded `CalculatePi(0, iterations)` |
| `PiEngine.RunWorker` | Calculate/Calculate.cpp:54-58 | worker `i` stores its range's result in `sums[i]` and leaves every other slot unchanged |
| `PiEngine.FillSlots` | Calculate/Calculate.cpp:52-64 | after all workers have run, slot `i` holds `CalculatePi(i*chunk, (i+1)*chunk)` for every `i` |
| `PiEngine.LaunchAsync` | Calculate/Calculate.cpp:104-110 | future `i` holds `CalculatePi(i*chunk, (i+1)*chunk)`, one future per worker in worker order |
| `PiEngine.Collect` | Calculate/Calculate.cpp:112-116 | reading the futures in order into a fresh vector keeps their values in worker order |
| `PiEngine.CalculatePiMultithreaded` | Calculate/Calculate.cpp:45-68 | the thread backend returns 4 times the series over `[0, chunk*numThreads)`, which is `CalculatePi(0, iterations)` when the division is exact |
| `PiEngine.CalculatePiMultithreadedWithFutureAndPromises` | Calculate/Calculate.cpp:70-96 | the promise/future backend returns the same value as the thread backend |
| `PiEngine.CalculatePiMultithreadedWithAsync` | Calculate/Calculate.cpp:98-120 | the `std::async` backend returns the same value as the thread backend |
| `PiEngine.CalculatePiMultithreadedWithPolicy` | Calculate/Calculate.cpp:122-144 | for every policy and every reduction schedule that reads each future once, the result equals the thread backend's |
| `PiEngine.CalculatePiMultithreadedWithSTL` | Calculate/Calculate.cpp:146-165 | the `par` instance returns the same value for every reduction schedule |
| `MonteCarlo.CountInside` | Calculate/Calculate/Calculate.cpp:30-36 | the number of sampled points inside the circle never exceeds the number of samples |
| `MonteCarlo.CountInsideAppend` | Calculate/Calculate/Calculate.cpp:56-65 | counting two consecutive runs of samples gives the sum of their counts |
| `MonteCarlo.CountPoints` | Calculate/Calculate/Calculate.cpp:27-38 | `local_in` is reset, then ends equal to the number of drawn points inside the circle, with `0 <= local_in <= number` (none drawn for negative `number`); `local_total == number` |
| `MonteCarlo.TotalHits` | Calculate/Calculate/Calculate.cpp:72-74 | the hits summed over all workers are at most `numThreads * per_thread` |
| `MonteCarlo.CountInsidePermutation` | Calculate/Calculate/Calculate.cpp:30-36 | the hit count does not depend on the order in which the points are drawn |
| `MonteCarlo.TotalHitsTaken` | Calculate/Calculate/Calculate.cpp:62-76 | the hits summed over the workers are the hits among all the points the workers take, worker after worker |
| `MonteCarlo.SplitCountsAgree` | Calculate/Calculate/Calculate.cpp:19-25 | whatever interleaving of the shared generator's draws the workers receive (`getRandomPoint`'s static engine at :21-24, called by every thread spawned at :62-65), when every draw goes to exactly one worker the workers' hits equal the hit count over the draws |
| `MonteCarlo.PerThread` | Calculate/Calculate/Calculate.cpp:56 | `per_thread = 10^8 / num_threads`, and `per_thread * num_threads <= 10^8`, so the counts fit in `int` |
| `MonteCarlo.RunWorkers` | Calculate/Calculate/Calculate.cpp:62-70 | after all workers have been joined, slot `k` of `local_ins` holds worker `k`'s hit count and slot `k` of `local_totals` holds `per_thread` |
| `MonteCarlo.Estimate` | Calculate/Calculate/Calculate.cpp:88 | with `0 <= in <= total` and `total > 0`, the estimate `4 * in / total` lies in `[0, 4]` |
| `MonteCarlo.RunWorker` | Calculate/Calculate/Calculate.cpp:62-65 | worker `i` writes `local_ins[i]` (its hit count) and `local_totals[i] == per_thread`, and no other slot |
| `MonteCarlo.Program.constructor` | Calculate/Calculate/Calculate.cpp:11-12 | both globals start at 0 |
| `MonteCarlo.Program.SingleThreadedExecution` | Calculate/Calculate/Calculate.cpp:40-49 | the single-threaded pass overwrites `in` with the hit count over 10^8 samples and `total` with 10^8, whatever they held before |
| `MonteCarlo.Program.AddSlots` | Calculate/Calculate/Calculate.cpp:72-76 | the aggregation loop raises `total` by exactly `per_thread*num_threads` and `in` by the sum of the slot counts; it keeps `0 <= in <= total` and never overflows `int` |
| `MonteCarlo.Program.MultiThreadedExecution` | Calculate/Calculate/Calculate.cpp:51-81 | the multithreaded pass adds `(10^8 / num_threads) * num_threads` to `total` and every worker's hits to `in`, keeping `0 <= in <= total` without `int` overflow |
| `MonteCarlo.Program.Run` | Calculate/Calculate/Calculate.cpp:83-90 | after both passes, `total == 10^8 + (10^8 / num_threads) * num_threads <= 2*10^8`, `in` is the sum of both passes' hits, `0 <= in <= total`, and the estimate is defined |

## Left out

- Threads and task machinery: `std::jthread`/`std::thread`, join, `new`/`delete` of thread objects, `std::promise`/`std::future`/`std::async` and the parallel execution of `std::transform_reduce`. Each worker is one sequential step that writes only its own slot (`RunWorker`). In the series backends the workers share no other state, so running them one after another gives the same slot contents as the concurrent run.
- `MonteCarlo.Program.MultiThreadedExecution`: the workers do share state besides their slots. Every thread calls `getRandomPoint`, whose static `default_random_engine` and `uniform_real_distribution` (Calculate/Calculate/Calculate.cpp:21-24) are advanced without synchronisation, which is a data race in the C++ memory model. The model does not capture that race. Each worker's points are an input stream that stands for whatever that worker happens to draw. Every proved count property holds for any points, so the bounds and the overflow freedom hold whatever the race produces. `SplitCountsAgree` assumes every draw goes to exactly one worker, which a race may break.
- Random sampling: `std::random_device`, `default_random_engine`, `uniform_real_distribution` and the static generator in `GetRandomPoint`/`getRandomPoint`. The points the generator would return are inputs, one sequence per pass or per worker, at least as long as the number of points drawn. The single-threaded pass and the multithreaded pass draw different points.
- Floating-point rounding: the series, the partial sums, `accumulate` and `transform_reduce` are over `real`. The circle test `x*x + y*y < 1.f` on `float` coordinates is over `real` too. Bit-exact reproducibility of the sorted `double` sum is not stated. Over `real` every order gives the same value, so the descending sort matters only for rounding, which is not modelled.
- `MonteCarlo.Estimate`: the estimate `1.f * in / total * 4` (Calculate/Calculate/Calculate.cpp:88, Calculate/Calculate.cpp:198) is `float` arithmetic. Converting counts above 2^24 to `float` rounds them, and the division rounds again. The model computes `4 * in / total` exactly over `real`.
- Timing and output: `MeasureTime`, `std::chrono`, and all `std::cout`/`iomanip` output, including main's duplicated `seq` policy runs and their mislabelled headings. `main` in Calculate/Calculate.cpp only calls the modelled backends and prints.
- `std::thread::hardware_concurrency()` is a parameter. A worker count of 0 divides by zero in the code (undefined behaviour), so every backend requires `numThreads > 0`, and the Monte Carlo pass requires a count that fits in `int`.
- Worker failures: an exception inside a task is not modelled. The source neither throws nor handles one.
- `PiEngine.CalculatePiMultithreadedWithPolicy`: the policy does not restrict the reduction order. `std::transform_reduce` is a generalized sum under every policy, so one `Schedule` parameter covers the orders and groupings it may use. Under `par_unseq` and `unseq` (Calculate/Calculate.cpp:260, 269), the transform calls `f.get()` (Calculate/Calculate.cpp:141). That call blocks and synchronises with the producing task, so it is not vectorization-safe, and those two runs have undefined behaviour under the C++ standard. The model gives them the same result as the other policies, which the standard does not promise.
- `MonteCarlo.CountPoints`: the two reference parameters are modelled as the method's two results. Aliasing between `local_in` and `local_total` is not modelled; no caller passes the same variable twice.
- The Monte Carlo counters are the globals `in`/`total`. `total` is not the full sample count: the multithreaded pass drops `10^8 % num_threads` samples, and both passes add into the same counters.
