/** Cursor arithmetic of the audio ring: unsigned 32-bit cursors taken modulo
    the allocation size, against the plain distances they stand for. */
module RingMath {
  import opened Common

  const MAX_ALLOC := 0x8000_0000

  /** The ring sizes for which `alloc + cursor` cannot wrap around 32 bits. */
  predicate AllocOk(alloc: nat) {
    2 <= alloc <= MAX_ALLOC
  }

  /** Number of readable samples, in wrapping 32-bit arithmetic. */
  function CanRead(alloc: nat, head: nat, tail: nat): nat
    requires alloc > 0
  {
    ((alloc + head - tail) % U32) % alloc
  }

  /** Number of writable samples, in wrapping 32-bit arithmetic. */
  function CanWrite(alloc: nat, head: nat, tail: nat): nat
    requires alloc > 0
  {
    ((alloc + tail - head - 1) % U32) % alloc
  }

  /** Cursor advanced by `n`, in wrapping 32-bit arithmetic. */
  function Advance(alloc: nat, cursor: nat, n: nat): nat
    requires alloc > 0
  {
    ((cursor + n) % U32) % alloc
  }

  /** The cell found `i` cells after `from`, wrapping at the end of the array. */
  function Cell(alloc: nat, from: nat, i: nat): (c: nat)
    requires from < alloc && i <= alloc
    ensures c < alloc
  {
    if from + i < alloc then from + i else from + i - alloc
  }

  /** The distance from one cursor forward to another. */
  function Distance(alloc: nat, from: nat, to: nat): (d: nat)
    requires from < alloc && to < alloc
    ensures d < alloc && Cell(alloc, from, d) == to
  {
    if from <= to then to - from else alloc + to - from
  }

  lemma {:induction false} ModUnique(x: int, q: int, r: int, m: int)
    requires 0 <= r < m && x == q * m + r
    ensures x % m == r
  {
    var d := x / m - q;
    assert d * m == r - x % m;
    assert d >= 1 ==> d * m >= m;
    assert d <= -1 ==> d * m <= -m;
  }

  lemma SmallMod(x: nat, m: nat)
    requires m > 0 && x < 2 * m
    ensures x % m == if x < m then x else x - m
  {
    if x < m {
      ModUnique(x, 0, x, m);
    } else {
      ModUnique(x, 1, x - m, m);
    }
  }

  /** Advancing a cursor moves it that many cells. */
  lemma AdvanceExact(alloc: nat, cursor: nat, n: nat)
    requires AllocOk(alloc) && cursor < alloc && n < alloc
    ensures Advance(alloc, cursor, n) == Cell(alloc, cursor, n)
  {
    SmallMod(cursor + n, U32);
    SmallMod(cursor + n, alloc);
  }

  /** The readable count computed from the cursors is the distance from the
      reader to the writer, and the writable count is what is left of it: one
      cell is never used. */
  lemma CountsExact(alloc: nat, head: nat, tail: nat)
    requires AllocOk(alloc) && head < alloc && tail < alloc
    ensures CanRead(alloc, head, tail) == Distance(alloc, tail, head)
    ensures CanWrite(alloc, head, tail) == alloc - 1 - Distance(alloc, tail, head)
  {
    SmallMod(alloc + head - tail, U32);
    SmallMod(alloc + head - tail, alloc);
    SmallMod(alloc + tail - head - 1, U32);
    SmallMod(alloc + tail - head - 1, alloc);
  }

  /** The counts computed from these cursors are the true ones. */
  predicate Exact(alloc: nat, head: nat, tail: nat)
    requires head < alloc && tail < alloc
  {
    && CanRead(alloc, head, tail) == Distance(alloc, tail, head)
    && CanWrite(alloc, head, tail) == alloc - 1 - Distance(alloc, tail, head)
  }

  /** The counts are right for every pair of cursors exactly up to 2^31 cells: in a
      larger ring that is full from cell 0 on, the readable count has wrapped. */
  lemma ExactUpToMax(alloc: u32)
    requires alloc > 0
    ensures (forall head: nat, tail: nat :: head < alloc && tail < alloc ==> Exact(alloc, head, tail)) <==>
            alloc <= MAX_ALLOC
  {
    hide Exact;
    if alloc <= MAX_ALLOC {
      forall head: nat, tail: nat | head < alloc && tail < alloc ensures Exact(alloc, head, tail) {
        ExactSmall(alloc, head, tail);
      }
    } else {
      WrappedCount(alloc);
    }
  }

  lemma ExactSmall(alloc: nat, head: nat, tail: nat)
    requires head < alloc <= MAX_ALLOC && tail < alloc
    ensures Exact(alloc, head, tail)
  {
    if alloc > 1 {
      hide CanRead, CanWrite;
      CountsExact(alloc, head, tail);
    }
  }

  lemma WrappedCount(alloc: u32)
    requires alloc > MAX_ALLOC
    ensures !Exact(alloc, alloc - 1, 0)
  {
    SmallMod(2 * alloc - 1, U32);
    SmallMod(2 * alloc - 1 - U32, alloc);
    assert CanRead(alloc, alloc - 1, 0) == 2 * alloc - 1 - U32;
    hide CanRead, CanWrite;
  }
}
