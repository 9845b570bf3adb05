// The series workload: `CalculatePi(start, end)` sums sign(i)/(2i+1) over
// [start, end) and scales the sum by 4. The model works over `real`, so
// the rounding of `double` is not part of it. The denominator is computed
// as `2 * i + 1` in `uint64_t`, which the model writes out modulo 2^64.
module Series {
  import opened Partitioner

  /** The sign of term `i`: -1 for odd `i`, +1 for even `i`. */
  function Sign(i: nat): int
  {
    if i % 2 == 1 then -1 else 1
  }

  /** `2 * i + 1` evaluated in `uint64_t` arithmetic. */
  function Denominator(i: nat): nat
  {
    (2 * i + 1) % U64
  }

  /** The denominator is odd, hence never zero, even after wrap-around; below 2^63 it is exactly 2i+1. */
  lemma DenominatorOdd(i: nat)
    ensures Denominator(i) % 2 == 1
    ensures i < U64 / 2 ==> Denominator(i) == 2 * i + 1
  {
  }

  /** One term `sign / term` of the series. */
  function Term(i: nat): real
  {
    DenominatorOdd(i);
    Sign(i) as real / Denominator(i) as real
  }

  /** The terms alternate: positive for even i, negative for odd i, with magnitude 1/(2i+1). */
  lemma TermAlternates(i: nat)
    requires i < U64 / 2
    ensures (Term(i) > 0.0) <==> i % 2 == 0
    ensures Term(i) == if i % 2 == 0 then 1.0 / (2 * i + 1) as real else -1.0 / (2 * i + 1) as real
  {
    DenominatorOdd(i);
  }

  /** The exact sum of the terms for i in [start, end); an empty or reversed range sums to 0. */
  function SeriesSum(start: nat, end: nat): real
    decreases end
  {
    if end <= start then 0.0 else SeriesSum(start, end - 1) + Term(end - 1)
  }

  /** Sums over adjacent ranges add up to the sum over their union: this is what makes splitting the work sound. */
  lemma {:induction false} SeriesSplit(a: nat, b: nat, c: nat)
    requires a <= b <= c
    ensures SeriesSum(a, b) + SeriesSum(b, c) == SeriesSum(a, c)
    decreases c
  {
    if b < c {
      SeriesSplit(a, b, c - 1);
    }
  }

  /** `CalculatePi`: the loop accumulates the terms of [start, end) and returns four times their sum. */
  method CalculatePi(start: uint64, end: uint64) returns (pi: real)
    ensures pi == 4.0 * SeriesSum(start, end)
    ensures end <= start ==> pi == 0.0
  {
    var sum := 0.0;
    var i := start;
    while i < end
      invariant start <= i && (i <= end || i == start)
      invariant sum == SeriesSum(start, i)
    {
      sum := sum + Term(i);
      i := i + 1;
    }
    pi := 4.0 * sum;
  }
}
