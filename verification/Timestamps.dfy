/** The timestamps written to one recorded stream: a timestamp that does not
    increase is replaced by the last one plus one. */
module Timestamps {
  import opened Common

  /** The value that means "no timestamp". */
  const NOPTS: i64 := -0x8000_0000_0000_0000
  const MAX_PTS: i64 := 0x7FFF_FFFF_FFFF_FFFF

  /** One more, wrapping around 64 bits. */
  function Next(pts: i64): i64 {
    if pts == MAX_PTS then NOPTS else pts + 1
  }

  /** The timestamp written for a rescaled timestamp. */
  function FixPts(last: i64, rescaled: i64): i64 {
    if last != NOPTS && rescaled <= last then Next(last) else rescaled
  }

  /** The last timestamp of a stream. */
  class Stream {
    var lastPts: i64

    constructor ()
      ensures lastPts == NOPTS
    {
      lastPts := NOPTS;
    }

    method Write(rescaled: i64) returns (pts: i64)
      modifies this
      ensures pts == lastPts == FixPts(old(lastPts), rescaled)
      ensures old(lastPts) != NOPTS ==> (pts > old(lastPts) <==> old(lastPts) < MAX_PTS)
    {
      pts := rescaled;
      if lastPts != NOPTS && pts <= lastPts {
        lastPts := Next(lastPts);
        pts := lastPts;
      } else {
        lastPts := pts;
      }
    }
  }

  ghost function FixAll(last: i64, rescaled: seq<i64>): (out: seq<i64>)
    ensures |out| == |rescaled|
    decreases |rescaled|
  {
    if rescaled == [] then []
    else [FixPts(last, rescaled[0])] + FixAll(FixPts(last, rescaled[0]), rescaled[1..])
  }

  ghost predicate Increasing(s: seq<i64>) {
    forall i, j :: 0 <= i < j < |s| ==> s[i] < s[j]
  }

  lemma IncreasingCons(x: i64, s: seq<i64>)
    requires s != []
    ensures Increasing([x] + s) <==> x < s[0] && Increasing(s)
  {
    var xs := [x] + s;
    if Increasing(xs) {
      assert xs[0] < xs[1];
      forall i, j | 0 <= i < j < |s| ensures s[i] < s[j] {
        assert xs[i + 1] < xs[j + 1];
      }
    }
  }

  /** There is room for one increment after each timestamp. */
  ghost predicate Room(rescaled: seq<i64>) {
    forall i :: 0 <= i < |rescaled| ==> rescaled[i] + (|rescaled| - 1 - i) <= MAX_PTS
  }

  lemma RoomCons(rescaled: seq<i64>)
    requires rescaled != []
    ensures Room(rescaled) <==> rescaled[0] + (|rescaled| - 1) <= MAX_PTS && Room(rescaled[1..])
  {
    var rest := rescaled[1..];
    if Room(rescaled) {
      forall i | 0 <= i < |rest| ensures rest[i] + (|rest| - 1 - i) <= MAX_PTS {
        assert rest[i] == rescaled[i + 1];
      }
    } else {
      var i :| 0 <= i < |rescaled| && rescaled[i] + (|rescaled| - 1 - i) > MAX_PTS;
      assert i > 0 ==> rest[i - 1] == rescaled[i];
    }
  }

  /** After a real timestamp. */
  lemma {:induction false} IncreasingAfter(last: i64, rescaled: seq<i64>)
    requires last > NOPTS
    ensures Increasing([last] + FixAll(last, rescaled)) <==> last + |rescaled| <= MAX_PTS && Room(rescaled)
    decreases |rescaled|
  {
    if rescaled != [] {
      var x := FixPts(last, rescaled[0]);
      var rest := FixAll(x, rescaled[1..]);
      assert FixAll(last, rescaled) == [x] + rest;
      IncreasingCons(last, [x] + rest);
      RoomCons(rescaled);
      if x > NOPTS {
        IncreasingAfter(x, rescaled[1..]);
      }
    }
  }

  /** Exactly the timestamps that can be written in strictly increasing order. */
  ghost predicate Repairable(rescaled: seq<i64>) {
    && !(|rescaled| >= 2 && rescaled[0] == NOPTS && rescaled[1] == NOPTS)
    && Room(rescaled)
  }

  /** Main theorem: for any 64-bit timestamps, whatever the rescaling, those written
      to a stream increase strictly, unless the first two are both the value that
      means "no timestamp", or the repair runs out of 64-bit values. */
  lemma TimestampsIncrease(rescaled: seq<i64>)
    ensures Increasing(FixAll(NOPTS, rescaled)) <==> Repairable(rescaled)
  {
    if rescaled != [] {
      var first, rest := rescaled[0], rescaled[1..];
      assert FixAll(NOPTS, rescaled) == [first] + FixAll(first, rest);
      RoomCons(rescaled);
      if first > NOPTS {
        IncreasingAfter(first, rest);
      } else if rest != [] {
        var second, more := rest[0], rest[1..];
        assert FixAll(NOPTS, rest) == [second] + FixAll(second, more);
        IncreasingCons(first, FixAll(NOPTS, rest));
        RoomCons(rest);
        if second > NOPTS {
          IncreasingAfter(second, more);
        }
      }
    }
  }

  /** Both exceptions are real. */
  lemma NotAlwaysIncreasing()
    ensures FixAll(NOPTS, [MAX_PTS, 0]) == [MAX_PTS, NOPTS] && !Repairable([MAX_PTS, 0])
    ensures FixAll(NOPTS, [NOPTS, NOPTS]) == [NOPTS, NOPTS] && !Repairable([NOPTS, NOPTS])
  {
    assert [MAX_PTS, 0][1..] == [0] && [0][1..] == [];
    assert FixAll(MAX_PTS, [0]) == [NOPTS];
    assert [MAX_PTS, 0][0] + 1 > MAX_PTS;
    assert [NOPTS, NOPTS][1..] == [NOPTS] && [NOPTS][1..] == [];
    assert FixAll(NOPTS, [NOPTS]) == [NOPTS];
  }

  /** Writing one timestamp more. */
  lemma {:induction false} FixAllAppend(last: i64, rescaled: seq<i64>, x: i64)
    ensures var out := FixAll(last, rescaled);
            FixAll(last, rescaled + [x]) == out + [FixPts(if out == [] then last else out[|out| - 1], x)]
    decreases |rescaled|
  {
    if rescaled == [] {
      assert rescaled + [x] == [x] && [x][1..] == [];
    } else {
      var y := FixPts(last, rescaled[0]);
      assert (rescaled + [x])[0] == rescaled[0] && (rescaled + [x])[1..] == rescaled[1..] + [x];
      FixAllAppend(y, rescaled[1..], x);
      assert FixAll(last, rescaled) == [y] + FixAll(y, rescaled[1..]);
    }
  }
}
