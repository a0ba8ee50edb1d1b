/** Big-endian integers. */
module Binary {
  import opened Common

  function Write16(v: u16): (b: seq<byte>)
    ensures |b| == 2
  {
    [v / 0x100, v % 0x100]
  }

  function Write32(v: u32): (b: seq<byte>)
    ensures |b| == 4
  {
    Write16(v / 0x1_0000) + Write16(v % 0x1_0000)
  }

  function Write64(v: u64): (b: seq<byte>)
    ensures |b| == 8
  {
    Write32(v / 0x1_0000_0000) + Write32(v % 0x1_0000_0000)
  }

  function Read16(b: seq<byte>): u16
    requires |b| >= 2
  {
    var hi: int, lo: int := b[0], b[1];
    hi * 0x100 + lo
  }

  function Read32(b: seq<byte>): u32
    requires |b| >= 4
  {
    var hi: int, lo: int := Read16(b[..2]), Read16(b[2..4]);
    hi * 0x1_0000 + lo
  }

  function Read64(b: seq<byte>): u64
    requires |b| >= 8
  {
    var hi: int, lo: int := Read32(b[..4]), Read32(b[4..8]);
    hi * 0x1_0000_0000 + lo
  }

  /** Reading back what was written, and writing back what was read. */
  lemma RoundTrip16(v: u16, b: seq<byte>)
    requires |b| == 2
    ensures Read16(Write16(v)) == v && Write16(Read16(b)) == b
  {
  }

  lemma RoundTrip32(v: u32, b: seq<byte>)
    requires |b| == 4
    ensures Read32(Write32(v)) == v && Write32(Read32(b)) == b
  {
    hide Read16, Write16;
    var hi, lo := v / 0x1_0000, v % 0x1_0000;
    assert Write32(v)[..2] == Write16(hi) && Write32(v)[2..4] == Write16(lo);
    RoundTrip16(hi, b[..2]);
    RoundTrip16(lo, b[2..4]);
    assert b == b[..2] + b[2..4];
  }

  lemma RoundTrip64(v: u64, b: seq<byte>)
    requires |b| == 8
    ensures Read64(Write64(v)) == v && Write64(Read64(b)) == b
  {
    hide Read32, Write32;
    var hi, lo := v / 0x1_0000_0000, v % 0x1_0000_0000;
    assert Write64(v)[..4] == Write32(hi) && Write64(v)[4..8] == Write32(lo);
    RoundTrip32(hi, b[..4]);
    RoundTrip32(lo, b[4..8]);
    assert b == b[..4] + b[4..8];
  }

  // ----- Writing into a buffer -----

  /** Only the bytes from `off` to `off + n` may differ. */
  twostate predicate OnlyChanged(buf: array<byte>, off: nat, n: nat)
    reads buf
  {
    forall i :: 0 <= i < buf.Length && !(off <= i < off + n) ==> buf[i] == old(buf[i])
  }

  method Put16(buf: array<byte>, off: nat, v: u16)
    requires off + 2 <= buf.Length
    modifies buf
    ensures buf[off..off + 2] == Write16(v) && Read16(buf[off..off + 2]) == v && OnlyChanged(buf, off, 2)
  {
    buf[off] := v / 0x100;
    buf[off + 1] := v % 0x100;
    RoundTrip16(v, Write16(v));
  }

  lemma FourBytes(v: u32)
    ensures Write32(v) == [v / 0x100_0000, v / 0x1_0000 % 0x100, v / 0x100 % 0x100, v % 0x100]
  {
    var hi: int, lo: int := v / 0x1_0000, v % 0x1_0000;
    assert Write32(v) == [hi / 0x100, hi % 0x100, lo / 0x100, lo % 0x100];
    hide Write32;
    var c := lo / 0x100;
    assert v == hi * 0x1_0000 + c * 0x100 + lo % 0x100;
    assert v / 0x100 == hi * 0x100 + c;
  }

  method Put32(buf: array<byte>, off: nat, v: u32)
    requires off + 4 <= buf.Length
    modifies buf
    ensures buf[off..off + 4] == Write32(v) && Read32(buf[off..off + 4]) == v && OnlyChanged(buf, off, 4)
  {
    buf[off] := v / 0x100_0000;
    buf[off + 1] := v / 0x1_0000 % 0x100;
    buf[off + 2] := v / 0x100 % 0x100;
    buf[off + 3] := v % 0x100;
    hide Write32, Read32;
    FourBytes(v);
    RoundTrip32(v, Write32(v));
  }

  method Put64(buf: array<byte>, off: nat, v: u64)
    requires off + 8 <= buf.Length
    modifies buf
    ensures buf[off..off + 8] == Write64(v) && Read64(buf[off..off + 8]) == v && OnlyChanged(buf, off, 8)
  {
    hide Write32, Read32, Read64;
    Put32(buf, off, v / U32);
    Put32(buf, off + 4, v % U32);
    assert buf[off..off + 8] == buf[off..off + 4] + buf[off + 4..off + 8];
    RoundTrip64(v, Write64(v));
  }
}
