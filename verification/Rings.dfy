/** Ring buffers: the arithmetic of indices that wrap. */
module Rings {

  /** Position `i` of a ring of `n` entries, for one turn at most. */
  function Wrap(i: nat, n: nat): (r: nat)
    requires i < 2 * n
    ensures r < n
  {
    if i < n then i else i - n
  }

  lemma WrapIsModulo(i: nat, n: nat)
    requires i < 2 * n
    ensures Wrap(i, n) == i % n
  {
  }

  /** The `count` entries from `head` on, round the end of the buffer. */
  function Window<T>(b: seq<T>, head: nat, count: nat): (r: seq<T>)
    requires head < |b| && count <= |b|
    ensures |r| == count && forall i :: 0 <= i < count ==> r[i] == b[Wrap(head + i, |b|)]
  {
    seq(count, i requires 0 <= i < count => b[Wrap(head + i, |b|)])
  }

  /** Writing at the tail appends. */
  lemma PushBack<T>(b: seq<T>, head: nat, count: nat, x: T)
    requires head < |b| && count < |b|
    ensures Window(b[Wrap(head + count, |b|) := x], head, count + 1) == Window(b, head, count) + [x]
  {
  }

  /** Advancing the head drops the oldest entry. */
  lemma PopFront<T>(b: seq<T>, head: nat, count: nat)
    requires head < |b| && 0 < count <= |b|
    ensures [b[head]] + Window(b, Wrap(head + 1, |b|), count - 1) == Window(b, head, count)
  {
  }

  // ---------- Division ----------

  lemma DivisionSteps(n: nat, p: nat)
    requires p > 0 && n > 0
    ensures n / p == (n - 1) / p + (if n % p == 0 then 1 else 0)
    ensures n % p == if (n - 1) % p == p - 1 then 0 else (n - 1) % p + 1
  {
    var q, r := (n - 1) / p, (n - 1) % p;
    assert n - 1 == q * p + r;
    if r == p - 1 {
      assert n == (q + 1) * p;
      Quotient(n, p, q + 1, 0);
    } else {
      Quotient(n, p, q, r + 1);
    }
  }

  lemma {:induction false} Product(a: nat, b: nat, p: nat)
    requires a < b
    ensures a * p + p <= b * p
  {
    assert b * p == (b - 1) * p + p;
    if a < b - 1 {
      Product(a, b - 1, p);
    }
  }

  lemma Quotient(n: nat, p: nat, q: nat, r: nat)
    requires p > 0 && n == q * p + r && r < p
    ensures n / p == q && n % p == r
  {
    var k := n / p;
    if k < q {
      Product(k, q, p);
      assert false;
    }
    if q < k {
      Product(q, k, p);
      assert false;
    }
  }

  /** The slot of entry `i` of a history written round a ring of `n`. */
  function Slot(i: nat, n: nat): (r: nat)
    requires n > 0
    ensures r < n
  {
    if i == 0 then 0 else Wrap(Slot(i - 1, n) + 1, n)
  }

  lemma {:induction false} SlotIsModulo(i: nat, n: nat)
    requires n > 0
    ensures Slot(i, n) == i % n
  {
    if i > 0 {
      SlotIsModulo(i - 1, n);
      DivisionSteps(i, n);
    }
  }

  lemma {:induction false} SlotAhead(i: nat, d: nat, n: nat)
    requires d <= n && n > 0
    ensures Slot(i + d, n) == Wrap(Slot(i, n) + d, n)
  {
    if d > 0 {
      SlotAhead(i, d - 1, n);
    }
  }

  /** Two different indices less than `n` apart fall into different slots. */
  lemma SlotsDiffer(i: nat, j: nat, n: nat)
    requires i < j < i + n
    ensures Slot(i, n) != Slot(j, n)
  {
    SlotAhead(i, j - i, n);
  }
}
