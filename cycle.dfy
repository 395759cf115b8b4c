/** Modular stepping through a list of n positions, as the gallery lightbox
    and the testimonial slideshow do it with JavaScript's `%` operator.
    Every dividend below is non-negative (i + 1 >= 1 and i - 1 + n >= n - 1),
    and on non-negative operands JavaScript's truncating `%` and Dafny's
    Euclidean `%` agree, so Dafny's operator is used as is. */
module Cycle {

  /** The position after i in a cycle of n: `(i + 1) % n`. */
  function NextIndex(i: int, n: int): (r: int)
    requires 0 <= i < n
    ensures 0 <= r < n
    ensures r == if i == n - 1 then 0 else i + 1
  {
    (i + 1) % n
  }

  /** The position before i in a cycle of n: `(i - 1 + n) % n`. */
  function PrevIndex(i: int, n: int): (r: int)
    requires 0 <= i < n
    ensures 0 <= r < n
    ensures r == if i == 0 then n - 1 else i - 1
  {
    (i - 1 + n) % n
  }

  /** Stepping back undoes stepping forward. */
  lemma PrevAfterNext(i: int, n: int)
    requires 0 <= i < n
    ensures PrevIndex(NextIndex(i, n), n) == i
  {
  }

  /** Stepping forward undoes stepping back. */
  lemma NextAfterPrev(i: int, n: int)
    requires 0 <= i < n
    ensures NextIndex(PrevIndex(i, n), n) == i
  {
  }

  /** The position reached after k forward steps from i. */
  function Advance(i: int, n: int, k: nat): (r: int)
    requires 0 <= i < n
    ensures 0 <= r < n
  {
    if k == 0 then i else NextIndex(Advance(i, n, k - 1), n)
  }

  /** Until the end of the list is passed, k steps move exactly k places. */
  lemma {:induction false} AdvanceWithoutWrap(i: int, n: int, k: nat)
    requires 0 <= i && i + k < n
    ensures Advance(i, n, k) == i + k
  {
    if k > 0 {
      AdvanceWithoutWrap(i, n, k - 1);
    }
  }

  /** Stepping a + b times is stepping a times and then b times. */
  lemma {:induction false} AdvanceCompose(i: int, n: int, a: nat, b: nat)
    requires 0 <= i < n
    ensures Advance(i, n, a + b) == Advance(Advance(i, n, a), n, b)
  {
    if b > 0 {
      AdvanceCompose(i, n, a, b - 1);
    }
  }

  /** From position i, n - i steps wrap around to the first position. */
  lemma AdvanceToStart(i: int, n: int)
    requires 0 <= i < n
    ensures Advance(i, n, n - i) == 0
  {
    AdvanceWithoutWrap(i, n, n - 1 - i);
  }

  /** n forward steps come back to the starting position. */
  lemma FullCycle(i: int, n: int)
    requires 0 <= i < n
    ensures Advance(i, n, n) == i
  {
    AdvanceCompose(i, n, n - i, i);
    AdvanceToStart(i, n);
    AdvanceWithoutWrap(0, n, i);
  }
}
