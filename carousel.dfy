/**
 * Wrap-around index arithmetic shared by the testimonial carousel and the
 * salon image gallery.  Both components keep an index into a list of `n`
 * items in their state and step it with `(i + 1) % n` and `(i - 1 + n) % n`.
 * The index is never negative and `n` is positive whenever a navigation
 * button exists, so JavaScript's truncating `%` and Dafny's Euclidean `%`
 * agree on every operand reached here.
 */
module Carousel {

  /** The index after a "next" click: `(i + 1) % n`. */
  function Next(i: nat, n: nat): (r: nat)
    requires n > 0
    ensures r < n
    ensures i < n ==> r == if i == n - 1 then 0 else i + 1
  {
    (i + 1) % n
  }

  /** The index after a "previous" click: `(i - 1 + n) % n`. */
  function Prev(i: nat, n: nat): (r: nat)
    requires n > 0
    ensures r < n
    ensures i < n ==> r == if i == 0 then n - 1 else i - 1
  {
    (i - 1 + n) % n
  }

  /** "Previous" undoes "next" and "next" undoes "previous" on an index in range. */
  lemma NextPrevInverse(i: nat, n: nat)
    requires i < n
    ensures Prev(Next(i, n), n) == i
    ensures Next(Prev(i, n), n) == i
  {
  }

  /** The index after `k` consecutive "next" clicks starting from `i`. */
  function Advance(i: nat, n: nat, k: nat): (r: nat)
    requires n > 0
    ensures i < n ==> r < n
  {
    if k == 0 then i else Next(Advance(i, n, k - 1), n)
  }

  /** The index after `k` consecutive "previous" clicks starting from `i`. */
  function Rewind(i: nat, n: nat, k: nat): (r: nat)
    requires n > 0
    ensures i < n ==> r < n
  {
    if k == 0 then i else Prev(Rewind(i, n, k - 1), n)
  }

  /** As long as no wrap happens, `k` "next" clicks move forward by `k`. */
  lemma {:induction false} AdvanceWithoutWrap(i: nat, n: nat, k: nat)
    requires i + k < n
    ensures Advance(i, n, k) == i + k
  {
    if k > 0 {
      AdvanceWithoutWrap(i, n, k - 1);
    }
  }

  /** `a + b` clicks are `a` clicks followed by `b` clicks. */
  lemma {:induction false} AdvanceSplit(i: nat, n: nat, a: nat, b: nat)
    requires n > 0
    ensures Advance(i, n, a + b) == Advance(Advance(i, n, a), n, b)
  {
    if b > 0 {
      AdvanceSplit(i, n, a, b - 1);
    }
  }

  /** Pressing "next" `n` times brings an index in range back to where it started. */
  lemma {:induction false} AdvanceFullCycle(i: nat, n: nat)
    requires i < n
    ensures Advance(i, n, n) == i
  {
    AdvanceWithoutWrap(i, n, n - 1 - i);
    assert Advance(i, n, n - i) == 0;
    AdvanceSplit(i, n, n - i, i);
    if i > 0 {
      AdvanceWithoutWrap(0, n, i);
    }
  }

  /** As long as no wrap happens, `k` "previous" clicks move back by `k`. */
  lemma {:induction false} RewindWithoutWrap(i: nat, n: nat, k: nat)
    requires k <= i < n
    ensures Rewind(i, n, k) == i - k
  {
    if k > 0 {
      RewindWithoutWrap(i, n, k - 1);
    }
  }

  /** `a + b` "previous" clicks are `a` clicks followed by `b` clicks. */
  lemma {:induction false} RewindSplit(i: nat, n: nat, a: nat, b: nat)
    requires n > 0
    ensures Rewind(i, n, a + b) == Rewind(Rewind(i, n, a), n, b)
  {
    if b > 0 {
      RewindSplit(i, n, a, b - 1);
    }
  }

  /** Pressing "previous" `n` times brings an index in range back to where it started. */
  lemma {:induction false} RewindFullCycle(i: nat, n: nat)
    requires i < n
    ensures Rewind(i, n, n) == i
  {
    RewindWithoutWrap(i, n, i);
    assert Rewind(i, n, i + 1) == n - 1;
    RewindSplit(i, n, i + 1, n - 1 - i);
    RewindWithoutWrap(n - 1, n, n - 1 - i);
  }
}
