/** Device messages over TCP: bytes arrive in arbitrary chunks into a fixed
    buffer; complete messages are handled and the rest is shifted to the front. */
module Receiver {
  import opened Common
  import opened Binary

  const MSG_MAX_SIZE := 0x4_0000
  const TEXT_MAX_LENGTH := MSG_MAX_SIZE - 5

  datatype DeviceMsg =
    | Clipboard(text: seq<byte>)
    | AckClipboard(sequence: u64)
    | UhidOutput(id: u16, data: seq<byte>)

  /** Nothing complete yet, an error, or a message and its length in bytes. */
  datatype Parsed = NoMsg | BadMsg | Msg(m: DeviceMsg, n: nat)

  function Deserialize(buf: seq<byte>): (r: Parsed)
    ensures r.Msg? ==> 5 <= r.n <= |buf|
  {
    if |buf| == 0 then NoMsg
    else if buf[0] == 0 then
      if |buf| < 5 then NoMsg
      else
        var len := Read32(buf[1..5]);
        if len > |buf| - 5 then NoMsg else Msg(Clipboard(buf[5..5 + len]), 5 + len)
    else if buf[0] == 1 then
      if |buf| < 9 then NoMsg else Msg(AckClipboard(Read64(buf[1..9])), 9)
    else if buf[0] == 2 then
      if |buf| < 5 then NoMsg
      else
        var size := Read16(buf[3..5]);
        if size > |buf| - 5 then NoMsg else Msg(UhidOutput(Read16(buf[1..3]), buf[5..5 + size]), 5 + size)
    else BadMsg
  }

  /** The messages of a byte string, the unparsed rest, and whether an error
      stopped the parsing. */
  datatype Outcome = Outcome(msgs: seq<DeviceMsg>, rest: seq<byte>, error: bool)

  function ParseAll(buf: seq<byte>): Outcome
    decreases |buf|
  {
    match Deserialize(buf)
    case NoMsg => Outcome([], buf, false)
    case BadMsg => Outcome([], buf, true)
    case Msg(m, n) =>
      var o := ParseAll(buf[n..]);
      o.(msgs := [m] + o.msgs)
  }

  // ----- The receiving thread -----

  class ReceiverObject {
    const buf: array<byte>
    var head: nat
    var handled: seq<DeviceMsg>
    var failed: bool

    ghost predicate Valid()
      reads this
    {
      buf.Length == MSG_MAX_SIZE && head <= MSG_MAX_SIZE
    }

    /** The bytes received and not handled yet. */
    ghost function Pending(): seq<byte>
      requires Valid()
      reads this, buf
    {
      buf[..head]
    }

    constructor ()
      ensures Valid() && fresh(buf)
      ensures Pending() == [] && handled == [] && !failed
    {
      buf := new byte[MSG_MAX_SIZE](_ => 0);
      head := 0;
      handled := [];
      failed := false;
    }

    /** Handles every complete message; returns the number of bytes consumed. */
    method ProcessMsgs() returns (consumed: nat)
      requires Valid() && !failed
      modifies `handled, `failed
      ensures var o := ParseAll(Pending());
              && handled == old(handled) + o.msgs && failed == o.error
              && consumed <= head && (!failed ==> buf[consumed..head] == o.rest)
    {
      hide Deserialize;
      consumed := 0;
      ghost var all := ParseAll(Pending());
      assert buf[consumed..head] == Pending();
      while true
        invariant 0 <= consumed <= head && !failed
        invariant var o := ParseAll(buf[consumed..head]);
                  handled + o.msgs == old(handled) + all.msgs && o.rest == all.rest && o.error == all.error
        decreases head - consumed
      {
        var r := Deserialize(buf[consumed..head]);
        if r.BadMsg? {
          failed := true;
          return;
        }
        if r.NoMsg? {
          return;
        }
        ghost var rest := ParseAll(buf[consumed..head][r.n..]);
        assert handled + ([r.m] + rest.msgs) == (handled + [r.m]) + rest.msgs;
        assert buf[consumed..head][r.n..] == buf[consumed + r.n..head];
        handled := handled + [r.m];
        consumed := consumed + r.n;
        if consumed == head {
          assert buf[consumed..head] == [];
          EmptyParses();
          return;
        }
      }
    }

    /** One turn of the receiving loop: `chunk` is what the socket delivered. */
    method Receive(chunk: seq<byte>)
      requires Valid() && !failed && head < MSG_MAX_SIZE
      requires 0 < |chunk| <= MSG_MAX_SIZE - head
      modifies this, buf
      ensures Valid()
      ensures var o := ParseAll(old(Pending()) + chunk);
              && handled == old(handled) + o.msgs && failed == o.error
              && (!failed ==> Pending() == o.rest)
    {
      ghost var before := Pending();
      Store(chunk);
      head := head + |chunk|;
      assert Pending() == before + chunk;
      var consumed := ProcessMsgs();
      if failed {
        return;
      }
      if consumed > 0 {
        ghost var rest := buf[consumed..head];
        head := head - consumed;
        ShiftLeft(consumed, head);
        assert Pending() == rest;
      }
    }

    /** The receiving loop over everything the socket delivers; it ends on an error.
        Each receive asks for at most the room left, and the code asserts that
        there is room. */
    method ReceiveAll(chunks: seq<seq<byte>>)
      requires Valid() && !failed && Receivable(Pending(), chunks)
      modifies this, buf
      ensures Valid()
      ensures var o := Feed(old(Pending()), chunks);
              && handled == old(handled) + o.msgs && failed == o.error
              && (!failed ==> Pending() == o.rest)
    {
      hide ParseAll;
      var i := 0;
      ghost var all := Feed(Pending(), chunks);
      assert chunks[i..] == chunks;
      while i < |chunks| && !failed
        invariant 0 <= i <= |chunks| && Valid()
        invariant failed ==> all.error && handled == old(handled) + all.msgs
        invariant !failed ==> Receivable(Pending(), chunks[i..])
        invariant !failed ==>
                    var o := Feed(Pending(), chunks[i..]);
                    handled + o.msgs == old(handled) + all.msgs && o.rest == all.rest && o.error == all.error
      {
        ghost var left, done := Pending(), handled;
        ghost var now := chunks[i..];
        assert now[0] == chunks[i] && now[1..] == chunks[i + 1..];
        Receive(chunks[i]);
        i := i + 1;
        ghost var o := ParseAll(left + now[0]);
        if !failed {
          ghost var p := Feed(o.rest, now[1..]);
          assert done + (o.msgs + p.msgs) == handled + p.msgs;
        }
      }
      if !failed {
        assert chunks[i..] == [];
        assert handled + [] == handled;
      }
    }

    method Store(chunk: seq<byte>)
      requires Valid() && head + |chunk| <= MSG_MAX_SIZE
      modifies buf
      ensures buf[..head + |chunk|] == old(buf[..head]) + chunk
    {
      var i := 0;
      while i < |chunk|
        invariant 0 <= i <= |chunk|
        invariant forall j :: 0 <= j < head ==> buf[j] == old(buf[j])
        invariant forall j :: head <= j < head + i ==> buf[j] == chunk[j - head]
      {
        buf[head + i] := chunk[i];
        i := i + 1;
      }
    }

    /** Moves `n` bytes to the front of the buffer. */
    method ShiftLeft(from: nat, n: nat)
      requires Valid() && from + n <= MSG_MAX_SIZE
      modifies buf
      ensures buf[..n] == old(buf[from..from + n])
    {
      var i := 0;
      while i < n
        invariant 0 <= i <= n
        invariant forall j :: 0 <= j < i ==> buf[j] == old(buf[from + j])
        invariant forall j :: i <= j < buf.Length ==> buf[j] == old(buf[j])
      {
        buf[i] := buf[from + i];
        i := i + 1;
      }
    }
  }

  // ----- Chunk independence -----

  /** An error is reported exactly for an unknown message type. */
  lemma ErrorExactly(buf: seq<byte>)
    ensures Deserialize(buf).BadMsg? <==> buf != [] && buf[0] > 2
  {
  }

  /** A message, once complete, does not depend on the bytes that follow. */
  lemma DeserializeStable(a: seq<byte>, b: seq<byte>)
    requires !Deserialize(a).NoMsg?
    ensures Deserialize(a + b) == Deserialize(a)
  {
    var ab := a + b;
    assert ab[0] == a[0];
    if a[0] == 0 {
      assert ab[1..5] == a[1..5];
      var len := Read32(a[1..5]);
      assert ab[5..5 + len] == a[5..5 + len];
    } else if a[0] == 1 {
      assert ab[1..9] == a[1..9];
    } else if a[0] == 2 {
      assert ab[1..3] == a[1..3] && ab[3..5] == a[3..5];
      var size := Read16(a[3..5]);
      assert ab[5..5 + size] == a[5..5 + size];
    }
  }

  /** Parsing in two goes, keeping the rest of the first, is parsing at once. */
  lemma {:induction false} ParseSplit(a: seq<byte>, b: seq<byte>)
    ensures var o := ParseAll(a);
            var all := ParseAll(a + b);
            if o.error then all.error && all.msgs == o.msgs
            else
              var p := ParseAll(o.rest + b);
              all == Outcome(o.msgs + p.msgs, p.rest, p.error)
    decreases |a|
  {
    hide Deserialize;
    var r := Deserialize(a);
    if r.NoMsg? {
      assert ParseAll(a + b).msgs == [] + ParseAll(a + b).msgs;
    } else {
      DeserializeStable(a, b);
      if r.Msg? {
        ParseSplit(a[r.n..], b);
        assert (a + b)[r.n..] == a[r.n..] + b;
        var o := ParseAll(a[r.n..]);
        if !o.error {
          var p := ParseAll(o.rest + b);
          assert [r.m] + (o.msgs + p.msgs) == ([r.m] + o.msgs) + p.msgs;
        }
      }
    }
  }

  /** What the receiving loop does with a list of chunks: the messages handled,
      the bytes left and whether it failed; nothing is received after an error. */
  ghost function Feed(left: seq<byte>, chunks: seq<seq<byte>>): Outcome
    decreases |chunks|
  {
    if chunks == [] then Outcome([], left, false)
    else
      var o := ParseAll(left + chunks[0]);
      if o.error then o
      else
        var p := Feed(o.rest, chunks[1..]);
        Outcome(o.msgs + p.msgs, p.rest, p.error)
  }

  /** Every receive gets some bytes and finds room for them. */
  ghost predicate Receivable(left: seq<byte>, chunks: seq<seq<byte>>)
    decreases |chunks|
  {
    chunks == [] ||
    (&& 0 < |chunks[0]| && |left| + |chunks[0]| <= MSG_MAX_SIZE
     && var o := ParseAll(left + chunks[0]); o.error || Receivable(o.rest, chunks[1..]))
  }

  ghost function Flatten(chunks: seq<seq<byte>>): seq<byte> {
    if chunks == [] then [] else chunks[0] + Flatten(chunks[1..])
  }

  /** A rest has nothing left to parse. */
  lemma {:induction false} RestIsStuck(buf: seq<byte>)
    ensures var o := ParseAll(buf); !o.error ==> Deserialize(o.rest).NoMsg?
    decreases |buf|
  {
    var r := Deserialize(buf);
    if r.Msg? {
      RestIsStuck(buf[r.n..]);
    }
  }

  /** Main theorem: however a byte stream is cut into chunks, the same messages
      are handled and the same error is found as in one parse of the whole, and
      without error the bytes left are exactly the unparsed rest. */
  lemma {:induction false} ChunkIndependence(left: seq<byte>, chunks: seq<seq<byte>>)
    requires Deserialize(left).NoMsg?
    ensures var o := Feed(left, chunks);
            var all := ParseAll(left + Flatten(chunks));
            o.msgs == all.msgs && o.error == all.error && (!o.error ==> o.rest == all.rest)
    decreases |chunks|
  {
    if chunks == [] {
      assert left + [] == left;
    } else {
      var a := left + chunks[0];
      var b := Flatten(chunks[1..]);
      assert left + Flatten(chunks) == a + b;
      ParseSplit(a, b);
      RestIsStuck(a);
      if !ParseAll(a).error {
        ChunkIndependence(ParseAll(a).rest, chunks[1..]);
      }
    }
  }

  // ----- The buffer is large enough -----

  /** The start of a clipboard message longer than the declared maximum. */
  predicate Oversized(r: seq<byte>) {
    |r| >= 5 && r[0] == 0 && Read32(r[1..5]) > TEXT_MAX_LENGTH
  }

  /** The bytes left fill the buffer exactly when they start an oversized message:
      then, and only then, the next receive finds no room. */
  lemma FullBuffer(r: seq<byte>)
    requires |r| == MSG_MAX_SIZE
    ensures Deserialize(r).NoMsg? <==> Oversized(r)
  {
  }

  /** An oversized message is never handled: it stays until the buffer is full. */
  lemma OversizedStays(r: seq<byte>, b: seq<byte>)
    requires Oversized(r) && |r| + |b| <= MSG_MAX_SIZE
    ensures ParseAll(r + b) == Outcome([], r + b, false) && Oversized(r + b)
  {
    assert (r + b)[1..5] == r[1..5];
  }

  // ----- The device's encoding -----

  predicate Fits(m: DeviceMsg) {
    && (m.Clipboard? ==> |m.text| <= TEXT_MAX_LENGTH)
    && (m.UhidOutput? ==> |m.data| < 0x1_0000)
  }

  function Encode(m: DeviceMsg): (b: seq<byte>)
    requires Fits(m)
    ensures |b| >= 5
  {
    match m
    case Clipboard(text) => [0] + Write32(|text|) + text
    case AckClipboard(sequence) => [1] + Write64(sequence)
    case UhidOutput(id, data) => [2] + Write16(id) + Write16(|data|) + data
  }

  ghost predicate AllFit(ms: seq<DeviceMsg>) {
    forall i :: 0 <= i < |ms| ==> Fits(ms[i])
  }

  function EncodeAll(ms: seq<DeviceMsg>): seq<byte>
    requires forall i :: 0 <= i < |ms| ==> Fits(ms[i])
  {
    if ms == [] then [] else Encode(ms[0]) + EncodeAll(ms[1..])
  }

  /** A message is read back exactly, whatever follows it. */
  lemma DecodeEncode(m: DeviceMsg, rest: seq<byte>)
    requires Fits(m)
    ensures Deserialize(Encode(m) + rest) == Msg(m, |Encode(m)|)
  {
    var b := Encode(m) + rest;
    match m
    case Clipboard(text) =>
      assert b[1..5] == Write32(|text|);
      RoundTrip32(|text|, b[1..5]);
      assert b[5..5 + |text|] == text;
    case AckClipboard(sequence) =>
      assert b[1..9] == Write64(sequence);
      RoundTrip64(sequence, b[1..9]);
    case UhidOutput(id, data) =>
      assert b[1..3] == Write16(id) && b[3..5] == Write16(|data|);
      RoundTrip16(id, b[1..3]);
      RoundTrip16(|data|, b[3..5]);
      assert b[5..5 + |data|] == data;
  }

  /** A proper prefix of an encoded message is incomplete and fits the buffer. */
  lemma PartialMessage(m: DeviceMsg, q: seq<byte>)
    requires Fits(m) && q < Encode(m)
    ensures Deserialize(q).NoMsg? && |q| < MSG_MAX_SIZE
  {
    var b := Encode(m);
    if |q| >= 5 {
      assert q[1..5] == b[1..5] && q[3..5] == b[3..5];
      if m.Clipboard? {
        assert b[1..5] == Write32(|m.text|);
        RoundTrip32(|m.text|, b[1..5]);
      } else if m.UhidOutput? {
        assert b[3..5] == Write16(|m.data|);
        RoundTrip16(|m.data|, b[3..5]);
      }
    }
    assert q != [] ==> q[0] == b[0];
  }

  lemma EmptyParses()
    ensures ParseAll([]) == Outcome([], [], false)
  {
  }

  /** Any beginning of an encoded stream parses without error to the messages it
      contains completely, and leaves less than a buffer. */
  lemma {:induction false} PrefixParses(ms: seq<DeviceMsg>, p: seq<byte>)
    requires AllFit(ms) && p <= EncodeAll(ms)
    ensures var o := ParseAll(p);
            && !o.error && o.msgs <= ms && |o.rest| < MSG_MAX_SIZE
            && (p == EncodeAll(ms) ==> o.msgs == ms && o.rest == [])
    decreases |ms|
  {
    hide Deserialize, Encode;
    if ms == [] {
      assert p == [] && ParseAll(p) == Outcome([], [], false) by {
        EmptyParses();
      }
    } else {
      var b := Encode(ms[0]);
      if |p| < |b| {
        assert p == b[..|p|];
        PartialMessage(ms[0], p);
      } else {
        var rest := p[|b|..];
        assert p == b + rest;
        DecodeEncode(ms[0], rest);
        PrefixParses(ms[1..], rest);
        assert ParseAll(p).msgs == [ms[0]] + ParseAll(rest).msgs;
      }
    }
  }

  /** Main theorem: whatever messages the device sends and however the network
      cuts their encoding, exactly these messages are handled, without error, with
      nothing left; and at every moment there is room to receive. */
  lemma DeliversAll(ms: seq<DeviceMsg>, chunks: seq<seq<byte>>, k: nat)
    requires AllFit(ms) && Flatten(chunks) == EncodeAll(ms) && k <= |chunks|
    ensures Feed([], chunks) == Outcome(ms, [], false)
    ensures |Feed([], chunks[..k]).rest| < MSG_MAX_SIZE
  {
    var all := EncodeAll(ms);
    PrefixParses(ms, all);
    assert [] + all == all;
    ChunkIndependence([], chunks);
    FlattenPrefix(chunks, k);
    var p := Flatten(chunks[..k]);
    PrefixParses(ms, p);
    assert [] + p == p;
    ChunkIndependence([], chunks[..k]);
  }

  lemma {:induction false} FlattenPrefix(chunks: seq<seq<byte>>, k: nat)
    requires k <= |chunks|
    ensures Flatten(chunks[..k]) <= Flatten(chunks)
  {
    if k > 0 {
      assert chunks[..k][1..] == chunks[1..][..k - 1];
      FlattenPrefix(chunks[1..], k - 1);
    }
  }
}
