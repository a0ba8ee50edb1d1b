/** The audio regulator between two interferences: push appends a resampled
    frame and drops the oldest samples beyond a bound, pull hands out the oldest
    samples and completes them with silence. `AudioInterleaving` lets the two
    run concurrently. */
module AudioRegulator {
  import opened Common
  import opened RingMath
  import opened AudioBuf

  const MAX_GAP := 100000 // 100 ms

  /** The sizes for which no 32-bit computation of the regulator wraps. */
  predicate SizesOk(target: nat, rate: nat) {
    && 0 < rate
    && target + rate < MAX_ALLOC
    && target * 11 < U32
    && 60 * rate < U32
  }

  /** The buffering bound selected by the `played` flag, in 32-bit arithmetic. */
  function MaxBuffered(target: nat, rate: nat, played: bool): nat {
    if played then
      ((target * 11) % U32 / 10 + (60 * rate) % U32 / 1000) % U32
    else
      (target + (10 * rate) % U32 / 1000) % U32
  }

  /** Samples of silence inserted on a discontinuity, to reach the target. */
  function GapSilence(target: nat, buffered: nat, input: nat): nat {
    if input + buffered < target then target - buffered - input else 0
  }

  /** The number of samples of a buffering time in microseconds. */
  function TargetSamples(delay: nat, rate: nat): nat {
    delay * rate / 1000000
  }

  /** The command line accepts at most one hour of buffering; at 48 kHz no
      32-bit computation of the regulator or of its ring wraps, and the bounds
      are the real ones. */
  lemma OneHourNeverWraps(delayMs: nat, rate: nat)
    requires delayMs <= 60 * 60 * 1000 && rate == 48000
    ensures var target := TargetSamples(delayMs * 1000, rate);
            && target == 48 * delayMs
            && SizesOk(target, rate)
            && AllocOk(target + rate + 1)
            && (target + rate + 1) * 8 < U32
            && MaxBuffered(target, rate, true) == target * 11 / 10 + 2880
            && MaxBuffered(target, rate, false) == target + 480
  {
    var target := TargetSamples(delayMs * 1000, rate);
    assert target == 48 * delayMs;
    SmallMod(target * 11, U32);
    SmallMod(target * 11 / 10 + 2880, U32);
    SmallMod(target + 480, U32);
  }

  /** The bounds are the intended ones, for all sizes for which nothing wraps: ten
      percent and 60 ms above the target, and 10 ms before playback starts. */
  lemma BoundsExact(target: nat, rate: nat)
    requires SizesOk(target, rate)
    ensures MaxBuffered(target, rate, true) == target * 11 / 10 + 60 * rate / 1000
    ensures MaxBuffered(target, rate, false) == target + 10 * rate / 1000
  {
    SmallMod(target * 11, U32);
    SmallMod(60 * rate, U32);
    SmallMod(10 * rate, U32);
    SmallMod(target * 11 / 10 + 60 * rate / 1000, U32);
    SmallMod(target + 10 * rate / 1000, U32);
  }

  /** The last `n` samples, or all of them when there are fewer. */
  ghost function LastN(s: seq<Sample>, n: nat): (r: seq<Sample>)
    ensures |r| == if |s| <= n then |s| else n
  {
    if |s| <= n then s else s[|s| - n..]
  }

  /** Writing what fits, dropping as many old samples as are left over, and
      writing the rest keeps the last `cap` samples. */
  lemma DropThenWrite(c: seq<Sample>, s: seq<Sample>, cap: nat)
    requires |c| <= cap && |s| <= cap
    ensures var n := Min(|s|, cap - |c|);
            (c + s[..n])[|s| - n..] + s[n..] == LastN(c + s, cap)
    ensures |c| + |s| <= cap ==> c + s[..|s|] == LastN(c + s, cap)
  {
    var n := Min(|s|, cap - |c|);
    assert s == s[..n] + s[n..];
    assert c + s == c + s[..n] + s[n..];
  }

  /** Samples in front of a frame that alone fills the buffer do not matter. */
  lemma LongFrame(c: seq<Sample>, s: seq<Sample>, cap: nat)
    requires |s| > cap
    ensures LastN(c + s[|s| - cap..], cap) == LastN(c + s, cap)
  {
  }

  lemma LastNTwice(s: seq<Sample>, a: nat, b: nat)
    ensures LastN(LastN(s, a), b) == LastN(s, Min(a, b))
  {
  }

  class Regulator {
    const buf: Buffer
    const target: nat
    const rate: nat
    var played: bool
    var received: bool
    var underflow: nat
    var nextExpectedPts: int

    ghost predicate Valid()
      reads this, buf
    {
      SizesOk(target, rate) && buf.Valid() && buf.Capacity() == target + rate
    }

    ghost function Buffered(): seq<Sample>
      requires Valid()
      reads this, buf, buf.data
    {
      buf.Contents()
    }

    /** Any 32-bit sizes are accepted, as long as the ring has a cell; the regulator
        is in order exactly when nothing wraps. */
    constructor (targetBuffering: u32, sampleRate: u32)
      requires (targetBuffering + sampleRate) % U32 > 0
      ensures fresh(buf) && fresh(buf.data)
      ensures target == targetBuffering && rate == sampleRate
      ensures Valid() <==> SizesOk(targetBuffering, sampleRate)
      ensures !played && (Valid() ==> Buffered() == [])
    {
      target := targetBuffering;
      rate := sampleRate;
      buf := new Buffer((targetBuffering + sampleRate) % U32);
      played := false;
      received := false;
      underflow := 0;
      nextExpectedPts := 0;
    }

    /** Fills `out`: silence only until the target buffering is reached for the
        first time, afterwards the oldest samples completed with silence. */
    method Pull(out: array<Sample>)
      requires Valid() && out.Length > 0 && out != buf.data
      modifies buf`tail, `played, `underflow, out
      ensures Valid()
      ensures !old(played) && |old(Buffered())| < target ==>
                && out[..] == seq(out.Length, _ => 0)
                && Buffered() == old(Buffered()) && !played && underflow == old(underflow)
      ensures old(played) || target <= |old(Buffered())| ==>
                var n := Min(out.Length, |old(Buffered())|);
                && out[..] == old(Buffered())[..n] + seq(out.Length - n, _ => 0)
                && Buffered() == old(Buffered())[n..] && played
                && underflow == old(underflow) + (if received then out.Length - n else 0)
    {
      if !played {
        var buffered := buf.Available();
        if buffered < target {
          FillSilence(out, 0);
          return;
        }
      }
      var read := buf.Read(out, out.Length);
      if read < out.Length {
        var silence := out.Length - read;
        FillSilence(out, read);
        if received {
          underflow := underflow + silence;
        }
      }
      played := true;
    }

    method FillSilence(out: array<Sample>, from: nat)
      requires from <= out.Length
      modifies out
      ensures out[..] == old(out[..from]) + seq(out.Length - from, _ => SILENCE)
    {
      var i := from;
      while i < out.Length
        invariant from <= i <= out.Length
        invariant out[..i] == old(out[..from]) + seq(i - from, _ => SILENCE)
      {
        out[i] := SILENCE;
        i := i + 1;
      }
      assert out[..] == out[..out.Length];
    }

    /** Into a full buffer: drops as many old samples as there are new ones. Both
        internal assertions on the counts hold. */
    method DropAndWrite(rest: seq<Sample>)
      requires Valid() && 0 < |rest| <= buf.Capacity() == |Buffered()|
      modifies buf.data, buf`head, buf`tail
      ensures Valid()
      ensures Buffered() == old(Buffered())[|rest|..] + rest
    {
      var skipped := buf.Read(null, |rest|);
      assert skipped == |rest|;
      var w := buf.Write(rest);
      assert w == |rest|;
      assert rest[..w] == rest;
    }

    /** Writes a frame that fits the empty buffer: first without, then with the
        lock, finally dropping the oldest samples. */
    method WriteFrame(s: seq<Sample>)
      requires Valid() && |s| <= buf.Capacity()
      modifies buf.data, buf`head, buf`tail
      ensures Valid()
      ensures Buffered() == LastN(old(Buffered()) + s, buf.Capacity())
    {
      DropThenWrite(Buffered(), s, buf.Capacity());
      var written := buf.Write(s);
      if written < |s| {
        ghost var full := Buffered();
        var more := buf.Write(s[written..]);
        assert more == 0 && Buffered() == full;
        written := written + more;
        if written < |s| {
          DropAndWrite(s[written..]);
        }
      }
    }

    /** Keeps at most `bound` samples, dropping the oldest. */
    method Trim(bound: nat)
      requires Valid()
      modifies buf`tail
      ensures Valid()
      ensures Buffered() == LastN(old(Buffered()), bound)
    {
      hide MaxBuffered, SizesOk;
      var canRead := buf.Available();
      if canRead > bound {
        canRead := buf.Available();
        if canRead > bound {
          var skip := canRead - bound;
          var r := buf.Read(null, skip);
          assert r == skip;
        }
      }
    }

    /** More than 100 ms are missing before the frame. */
    predicate Discontinuity(pts: int)
      reads this
    {
      nextExpectedPts != 0 && pts - nextExpectedPts > MAX_GAP
    }

    /** After a gap of more than 100 ms, silence completes the buffering, together
        with the frame to come, exactly to the target; otherwise nothing is added. */
    method FillGap(pts: int, input: nat)
      requires Valid()
      modifies buf.data, buf`head, `underflow
      ensures Valid()
      ensures nextExpectedPts != 0 && pts - nextExpectedPts > 100000 && |old(Buffered())| + input < target ==>
                && |Buffered()| + input == target
                && old(Buffered()) <= Buffered()
                && (forall i :: |old(Buffered())| <= i < |Buffered()| ==> Buffered()[i] == 0)
      ensures !(nextExpectedPts != 0 && pts - nextExpectedPts > 100000 && |old(Buffered())| + input < target) ==>
                Buffered() == old(Buffered())
      ensures underflow == if nextExpectedPts != 0 && pts - nextExpectedPts > 100000 then 0 else old(underflow)
    {
      if Discontinuity(pts) {
        var canRead := buf.Available();
        var silence := GapSilence(target, canRead, input);
        if silence > 0 {
          var n := buf.WriteSilence(silence);
          assert n == silence;
        }
        underflow := 0;
      }
    }

    /** Stores a resampled frame, then enforces the buffering bound. */
    method PushSamples(resampled: seq<Sample>)
      requires Valid()
      modifies buf.data, buf`head, buf`tail, `received, `underflow
      ensures Valid() && received && underflow == if played then 0 else old(underflow)
      ensures Buffered() ==
              LastN(old(Buffered()) + resampled, Min(target + rate, MaxBuffered(target, rate, played)))
    {
      ghost var all := Buffered() + resampled;
      var samples := resampled;
      var cap := buf.Capacity();
      if |samples| > cap {
        LongFrame(Buffered(), samples, cap);
        samples := samples[|samples| - cap..];
      }
      WriteFrame(samples);
      assert Buffered() == LastN(all, cap);
      if played {
        underflow := 0;
      }
      var bound := MaxBuffered(target, rate, played);
      Trim(bound);
      LastNTwice(all, cap, bound);
      received := true;
    }

    /** One decoded frame: after a gap of more than 100 ms, silence first completes the
        buffering to the target; then the buffer ends up with the last samples of
        what it held and the resampled frame, limited to the ring and to the bound
        selected by `played`. A failed resampling leaves only the silence. */
    method Push(pts: int, input: nat, resampled: Option<seq<Sample>>) returns (ok: bool)
      requires Valid() && pts >= 0
      modifies buf.data, buf`head, buf`tail, `nextExpectedPts, `received, `underflow
      ensures Valid() && ok == resampled.Some?
      ensures nextExpectedPts == pts + input * 1000000 / rate
      ensures var gap := old(nextExpectedPts) != 0 && pts - old(nextExpectedPts) > 100000;
              var n := |old(Buffered())|;
              var c := old(Buffered()) + seq(if gap && n + input < target then target - n - input else 0, _ => 0);
              if ok then
                && Buffered() == LastN(c + resampled.value, Min(target + rate, MaxBuffered(target, rate, played)))
                && received && underflow == if played || gap then 0 else old(underflow)
              else
                && Buffered() == c && received == old(received)
                && underflow == if gap then 0 else old(underflow)
    {
      ghost var before := Buffered();
      FillGap(pts, input);
      ghost var n := |Buffered()| - |before|;
      assert Buffered() == before + seq(n, _ => 0);
      nextExpectedPts := pts + input * 1000000 / rate;
      if resampled.None? {
        return false;
      }
      PushSamples(resampled.value);
      return true;
    }
  }
}
