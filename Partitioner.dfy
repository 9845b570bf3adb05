// The work split that every multithreaded variant repeats inline:
// `chunk = iterations / numThreads`, worker `i` computes over the half-open
// range [i*chunk, (i+1)*chunk). The remainder `iterations % numThreads` is
// dropped on purpose.
module Partitioner {

  /** 2^64: one past the largest `uint64_t`/`size_t` value. */
  const U64: int := 0x1_0000_0000_0000_0000

  type uint64 = x: int | 0 <= x < U64

  /** A half-open index range [start, end). */
  datatype Range = Range(start: nat, end: nat) {
    predicate Contains(x: int) { start <= x < end }
    function Length(): int { end - start }
  }

  /** `iterations / numThreads`: the number of indices each worker receives. */
  function Chunk(n: nat, w: nat): nat
    requires w > 0
  {
    n / w
  }

  /** The range worker `i` computes: [i*chunk, (i+1)*chunk). */
  function WorkerRange(n: nat, w: nat, i: nat): Range
    requires w > 0
  {
    Range(i * Chunk(n, w), (i + 1) * Chunk(n, w))
  }

  /** The ranges of all `w` workers, in worker order. */
  function Partition(n: nat, w: nat): (rs: seq<Range>)
    requires w > 0
    ensures |rs| == w
  {
    seq(w, i requires 0 <= i < w => WorkerRange(n, w, i))
  }

  /** Multiplying by the same factor keeps the order. */
  lemma MulMonotone(a: nat, b: nat, c: nat)
    requires a <= b
    ensures a * c <= b * c
  {
  }

  /** The dropped remainder: chunk*w never exceeds n, and fewer than w indices are lost. */
  lemma Truncation(n: nat, w: nat)
    requires w > 0
    ensures Chunk(n, w) * w <= n
    ensures n - Chunk(n, w) * w == n % w < w
  {
  }

  /** Each range is well formed, has exactly `chunk` indices and ends inside [0, chunk*w] and so inside [0, n]. */
  lemma RangeShape(n: nat, w: nat, i: nat)
    requires 0 <= i < w
    ensures Partition(n, w)[i].start <= Partition(n, w)[i].end
    ensures Partition(n, w)[i].Length() == Chunk(n, w)
    ensures Partition(n, w)[i].end <= Chunk(n, w) * w <= n
  {
    var c := Chunk(n, w);
    assert (i + 1) * c == i * c + c;
    MulMonotone(i + 1, w, c);
    Truncation(n, w);
  }

  /** With a `uint64_t` iteration count, neither `i*chunk` nor `(i+1)*chunk` wraps around. */
  lemma NoOverflow(n: uint64, w: nat, i: nat)
    requires 0 <= i < w
    ensures 0 <= i * Chunk(n, w) <= (i + 1) * Chunk(n, w) < U64
  {
  }

  /** The first range starts at 0, each range ends where the next one starts, and the last ends at chunk*w. */
  lemma Contiguous(n: nat, w: nat)
    requires w > 0
    ensures Partition(n, w)[0].start == 0
    ensures forall i :: 0 <= i < w - 1 ==> Partition(n, w)[i].end == Partition(n, w)[i + 1].start
    ensures Partition(n, w)[w - 1].end == Chunk(n, w) * w
  {
  }

  /** Ranges of different workers are ordered and share no index. */
  lemma Disjoint(n: nat, w: nat, i: nat, j: nat, x: int)
    requires 0 <= i < j < w
    ensures Partition(n, w)[i].end <= Partition(n, w)[j].start
    ensures !(Partition(n, w)[i].Contains(x) && Partition(n, w)[j].Contains(x))
  {
  }

  /** An index is computed by some worker exactly when it lies in [0, chunk*w). */
  lemma Covers(n: nat, w: nat, x: int)
    requires w > 0
    ensures (exists i :: 0 <= i < w && Partition(n, w)[i].Contains(x)) <==> 0 <= x < Chunk(n, w) * w
  {
    var c := Chunk(n, w);
    if 0 <= x < c * w {
      var i := x / c;
      assert x == i * c + x % c;
      assert (i + 1) * c == i * c + c;
      if i >= w {
        MulMonotone(w, i, c);
        assert false;
      }
      assert Partition(n, w)[i].Contains(x);
    }
    if exists i :: 0 <= i < w && Partition(n, w)[i].Contains(x) {
      var i :| 0 <= i < w && Partition(n, w)[i].Contains(x);
      RangeShape(n, w, i);
    }
  }

  /** When the workers divide the iterations evenly, nothing is dropped. */
  lemma EvenSplitCoversAll(n: nat, w: nat)
    requires w > 0 && n % w == 0
    ensures Chunk(n, w) * w == n
  {
  }

  /** Ten iterations on three workers: [0,3), [3,6), [6,9); index 9 is dropped. */
  lemma TenOnThree()
    ensures Partition(10, 3) == [Range(0, 3), Range(3, 6), Range(6, 9)]
    ensures !Partition(10, 3)[2].Contains(9)
  {
  }
}
