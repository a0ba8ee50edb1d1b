/** The audio ring buffer as one thread sees it between two interferences: a
    bounded FIFO kept in an array by two wrapping cursors. */
module AudioBuf {
  import opened Common
  import opened RingMath

  type Sample = int
  const SILENCE: Sample := 0

  /** `n` cells of the ring, starting at `from` and wrapping at the end. */
  ghost function Window(cells: seq<Sample>, from: nat, n: nat): (w: seq<Sample>)
    requires from < |cells| && n <= |cells|
    ensures |w| == n
    ensures forall i :: 0 <= i < n ==> w[i] == cells[Cell(|cells|, from, i)]
  {
    seq(n, i requires 0 <= i < n => cells[Cell(|cells|, from, i)])
  }

  /** The ring after `s` was stored from cell `at` on, wrapping at the end. */
  ghost predicate Stored(before: seq<Sample>, after: seq<Sample>, at: nat, s: seq<Sample>)
    requires at < |before| == |after|
  {
    forall c :: 0 <= c < |after| ==>
      after[c] == var d := Distance(|before|, at, c); if d < |s| then s[d] else before[c]
  }

  /** Cells filled behind a window extend it. */
  lemma {:induction false} WindowExtends(cells: seq<Sample>, from: nat, n: nat, s: seq<Sample>)
    requires from < |cells| && n + |s| < |cells|
    requires forall j :: 0 <= j < |s| ==> cells[Cell(|cells|, Cell(|cells|, from, n), j)] == s[j]
    ensures Window(cells, from, n + |s|) == Window(cells, from, n) + s
  {
    var w := Window(cells, from, n + |s|);
    forall i | n <= i < n + |s| ensures w[i] == s[i - n] {
      assert Cell(|cells|, from, i) == Cell(|cells|, Cell(|cells|, from, n), i - n);
    }
  }

  /** Storing behind `n` used cells appends to the window and keeps the rest. */
  lemma {:induction false} StoredAppends(before: seq<Sample>, after: seq<Sample>, from: nat, n: nat, s: seq<Sample>)
    requires from < |before| == |after| && n + |s| < |before|
    requires Stored(before, after, Cell(|before|, from, n), s)
    ensures Window(after, from, n + |s|) == Window(before, from, n) + s
  {
    var at := Cell(|before|, from, n);
    forall i | 0 <= i < n ensures after[Cell(|before|, from, i)] == before[Cell(|before|, from, i)] {
      assert Distance(|before|, at, Cell(|before|, from, i)) >= |s|;
    }
    forall j | 0 <= j < |s| ensures after[Cell(|after|, at, j)] == s[j] {
      assert Distance(|before|, at, Cell(|after|, at, j)) == j;
    }
    assert Window(after, from, n) == Window(before, from, n);
    WindowExtends(after, from, n, s);
  }

  /** Dropping cells at the front of a window shortens it from the left. */
  lemma {:induction false} WindowDrop(cells: seq<Sample>, from: nat, n: nat, k: nat)
    requires from < |cells| && k <= n < |cells|
    ensures Window(cells, Cell(|cells|, from, k), n - k) == Window(cells, from, n)[k..]
  {
    var at := Cell(|cells|, from, k);
    forall j | k <= j < n
      ensures Window(cells, at, n - k)[j - k] == Window(cells, from, n)[j]
    {
      assert Cell(|cells|, at, j - k) == Cell(|cells|, from, j);
    }
  }

  class Buffer {
    const alloc: nat
    const data: array<Sample>
    var head: nat
    var tail: nat

    ghost predicate Valid()
      reads this
    {
      AllocOk(alloc) && data.Length == alloc && head < alloc && tail < alloc
    }

    /** Number of samples written and not read yet. */
    ghost function Used(): (n: nat)
      requires Valid()
      reads this
      ensures n < alloc
    {
      Distance(alloc, tail, head)
    }

    /** The samples written and not read yet, oldest first. */
    ghost function Contents(): (s: seq<Sample>)
      requires Valid()
      reads this, data
      ensures |s| == Used()
    {
      Window(data[..], tail, Used())
    }

    function Capacity(): nat
      requires alloc > 0
    {
      alloc - 1
    }

    /** Any 32-bit capacity is accepted; the buffer works exactly when the cursor
        arithmetic does. */
    constructor (capacity: u32)
      requires capacity > 0
      ensures fresh(data) && alloc == (capacity + 1) % U32
      ensures Valid() <==> capacity < MAX_ALLOC
      ensures capacity < MAX_ALLOC ==> Capacity() == capacity && Contents() == []
    {
      var size := (capacity + 1) % U32;
      alloc := size;
      data := new Sample[size](_ => SILENCE);
      head := 0;
      tail := 0;
    }

    method Available() returns (n: nat)
      requires Valid()
      ensures n == |Contents()| && n <= Capacity()
    {
      CountsExact(alloc, head, tail);
      n := CanRead(alloc, head, tail);
    }

    /** The free space, from the cursors. */
    method Room() returns (n: nat)
      requires Valid()
      ensures n == Capacity() - |Contents()|
    {
      CountsExact(alloc, head, tail);
      n := CanWrite(alloc, head, tail);
    }

    method Publish(cursor: nat, n: nat) returns (c: nat)
      requires Valid() && cursor < alloc && n < alloc
      ensures c == Cell(alloc, cursor, n)
    {
      AdvanceExact(alloc, cursor, n);
      c := Advance(alloc, cursor, n);
    }

    /** Copies `n` samples, from `s[off]` on, into consecutive cells. */
    method CopyIn(at: nat, s: seq<Sample>, off: nat, n: nat)
      requires Valid() && at + n <= alloc && off + n <= |s|
      modifies data
      ensures forall c :: 0 <= c < alloc ==>
                data[c] == if at <= c < at + n then s[off + (c - at)] else old(data[c])
    {
      var i := 0;
      while i < n
        invariant 0 <= i <= n
        invariant forall c :: 0 <= c < alloc ==>
                    data[c] == if at <= c < at + i then s[off + (c - at)] else old(data[c])
      {
        data[at + i] := s[off + i];
        i := i + 1;
      }
    }

    /** Copies samples into the free cells, in at most two runs. */
    method Store(s: seq<Sample>)
      requires Valid() && Used() + |s| < alloc
      modifies data
      ensures Window(data[..], tail, Used() + |s|) == old(Contents()) + s
    {
      ghost var before := data[..];
      var rightCount := alloc - head;
      if rightCount > |s| {
        rightCount := |s|;
      }
      CopyIn(head, s, 0, rightCount);
      if |s| > rightCount {
        CopyIn(0, s, rightCount, |s| - rightCount);
      }
      assert Stored(before, data[..], head, s);
      StoredAppends(before, data[..], tail, Used(), s);
    }

    /** Appends as many of the given samples as fit and says how many. */
    method Write(from: seq<Sample>) returns (n: nat)
      requires Valid()
      modifies data, `head
      ensures Valid()
      ensures n == if |from| <= Capacity() - |old(Contents())| then |from| else Capacity() - |old(Contents())|
      ensures Contents() == old(Contents()) + from[..n]
    {
      var canWrite := Room();
      if canWrite == 0 {
        return 0;
      }
      n := if |from| > canWrite then canWrite else |from|;
      Store(from[..n]);
      head := Publish(head, n);
    }

    /** Appends silence. */
    method WriteSilence(count: nat) returns (n: nat)
      requires Valid()
      modifies data, `head
      ensures Valid()
      ensures n == if count <= Capacity() - |old(Contents())| then count else Capacity() - |old(Contents())|
      ensures Contents() == old(Contents()) + seq(n, _ => SILENCE)
    {
      var canWrite := Room();
      if canWrite == 0 {
        return 0;
      }
      n := if count > canWrite then canWrite else count;
      Store(seq(n, _ => SILENCE));
      head := Publish(head, n);
    }

    /** Copies the `n` oldest samples out, in at most two runs. */
    method CopyOut(to: array<Sample>, n: nat)
      requires Valid() && to != data && n <= |Contents()| && n <= to.Length
      modifies to
      ensures to[..] == Contents()[..n] + old(to[n..])
    {
      var rightCount := alloc - tail;
      if rightCount > n {
        rightCount := n;
      }
      ghost var was := Contents();
      var i := 0;
      while i < rightCount
        invariant 0 <= i <= rightCount
        invariant forall j :: 0 <= j < to.Length ==> to[j] == if j < i then was[j] else old(to[j])
      {
        to[i] := data[tail + i];
        i := i + 1;
      }
      while i < n
        invariant rightCount <= i <= n
        invariant forall j :: 0 <= j < to.Length ==> to[j] == if j < i then was[j] else old(to[j])
      {
        to[i] := data[i - rightCount];
        i := i + 1;
      }
    }

    /** Takes up to `count` of the oldest samples; with no destination they are
        discarded. */
    method Read(to: array?<Sample>, count: nat) returns (n: nat)
      requires Valid() && count > 0
      requires to != null ==> to != data && count <= to.Length
      modifies `tail, to
      ensures Valid()
      ensures n == if count <= |old(Contents())| then count else |old(Contents())|
      ensures Contents() == old(Contents())[n..]
      ensures to != null ==> to[..] == old(Contents())[..n] + old(to[n..])
    {
      var canRead := Available();
      if canRead == 0 {
        return 0;
      }
      n := if count > canRead then canRead else count;
      if to != null {
        CopyOut(to, n);
      }
      WindowDrop(data[..], tail, canRead, n);
      tail := Publish(tail, n);
    }
  }
}
