/** The media stream of the device: a codec id, then session headers and packets
    behind a 12-byte header. For H.264 and H.265, config packets are prepended to
    the next media packet. */
module Demuxer {
  import opened Common
  import opened Binary

  const HEADER_SIZE := 12

  /** Packet sizes are signed integers. */
  const SIZE_LIMIT := 0x8000_0000

  const FLAG_CONFIG := 0x4000_0000_0000_0000
  const FLAG_KEY := 0x2000_0000_0000_0000
  const SESSION_BIT := 0x8000_0000

  /** A config packet has no timestamp. */
  datatype Pts = NoPts | At(value: nat)

  datatype Item =
    | Session(width: u32, height: u32, resized: bool)
    | Packet(pts: Pts, key: bool, data: seq<byte>)

  // ----- Codecs -----

  datatype Codec = H264 | H265 | AV1 | VP8 | VP9 | OPUS | AAC | FLAC | RAW

  function CodecOf(id: u32): Option<Codec> {
    if id == 0x68323634 then Some(H264)
    else if id == 0x68323635 then Some(H265)
    else if id == 0x00617631 then Some(AV1)
    else if id == 0x00767038 then Some(VP8)
    else if id == 0x00767039 then Some(VP9)
    else if id == 0x6f707573 then Some(OPUS)
    else if id == 0x00616163 then Some(AAC)
    else if id == 0x666c6163 then Some(FLAC)
    else if id == 0x00726177 then Some(RAW)
    else None
  }

  predicate IsVideo(c: Codec) {
    c.H264? || c.H265? || c.AV1? || c.VP8? || c.VP9?
  }

  predicate MustMerge(c: Codec) {
    c.H264? || c.H265?
  }

  /** The name of a codec, as the device writes it. */
  function Name(c: Codec): string {
    match c
    case H264 => "h264"
    case H265 => "h265"
    case AV1 => "av1"
    case VP8 => "vp8"
    case VP9 => "vp9"
    case OPUS => "opus"
    case AAC => "aac"
    case FLAC => "flac"
    case RAW => "raw"
  }

  /** The characters of a name as one big-endian number. */
  function Ascii(name: string): nat {
    if name == [] then 0 else Ascii(name[..|name| - 1]) * 0x100 + name[|name| - 1] as int
  }

  lemma AsciiFew(name: string)
    requires |name| == 3 || |name| == 4
    ensures Ascii(name) ==
            if |name| == 3 then (name[0] as int * 0x100 + name[1] as int) * 0x100 + name[2] as int
            else ((name[0] as int * 0x100 + name[1] as int) * 0x100 + name[2] as int) * 0x100 + name[3] as int
  {
    hide Ascii;
    AsciiSnoc([], name[0]);
    AsciiSnoc([name[0]], name[1]);
    AsciiSnoc([name[0], name[1]], name[2]);
    assert [] + [name[0]] == [name[0]] && [name[0]] + [name[1]] == [name[0], name[1]];
    if |name| == 3 {
      assert name == [name[0], name[1]] + [name[2]];
    } else {
      var three := [name[0], name[1]] + [name[2]];
      AsciiSnoc(three, name[3]);
      assert name == three + [name[3]];
    }
  }

  lemma AsciiSnoc(name: string, c: char)
    ensures Ascii([]) == 0 && Ascii(name + [c]) == Ascii(name) * 0x100 + c as int
  {
    assert (name + [c])[..|name|] == name;
  }

  /** A codec id is the name of the codec in ASCII, and nothing else is one; config
      packets are merged for the two codecs whose name starts with h26. */
  lemma CodecNames(id: u32, c: Codec)
    ensures CodecOf(id) == Some(c) <==> id == Ascii(Name(c))
    ensures MustMerge(c) <==> "h26" <= Name(c)
    ensures IsVideo(c) <==> c in {H264, H265, AV1, VP8, VP9}
  {
    AsciiFew(Name(c));
  }

  // ----- One record -----

  predicate IsSession(header: seq<byte>)
    requires |header| >= HEADER_SIZE
  {
    header[0] >= 0x80
  }

  function ParseSession(header: seq<byte>): Item
    requires |header| >= HEADER_SIZE
  {
    Session(Read32(header[4..8]), Read32(header[8..12]), header[3] % 2 == 1)
  }

  function HasFlag(v: u64, flag: nat): bool
    requires flag > 0
  {
    (v / flag) % 2 == 1
  }

  function PtsOf(v: u64): Pts {
    if HasFlag(v, FLAG_CONFIG) then NoPts else At(v % FLAG_KEY)
  }

  /** The next record of a stream: the end, an error, or an item and its length. */
  datatype Next = AtEnd | Broken | Got(item: Item, n: nat)

  function ReadNext(s: seq<byte>): (r: Next)
    ensures r.Got? ==> HEADER_SIZE <= r.n <= |s|
    ensures r.AtEnd? <==> |s| < HEADER_SIZE
  {
    if |s| < HEADER_SIZE then AtEnd
    else if IsSession(s) then Got(ParseSession(s), HEADER_SIZE)
    else
      var v := Read64(s[..8]);
      var len := Read32(s[8..12]);
      if len == 0 || len >= SIZE_LIMIT || |s| - HEADER_SIZE < len then Broken
      else Got(Packet(PtsOf(v), HasFlag(v, FLAG_KEY), s[HEADER_SIZE..HEADER_SIZE + len]), HEADER_SIZE + len)
  }

  datatype Status = Eos | Error | Disabled

  function DemuxAll(s: seq<byte>): (seq<Item>, Status)
    decreases |s|
  {
    match ReadNext(s)
    case AtEnd => ([], Eos)
    case Broken => ([], Error)
    case Got(item, n) =>
      var (items, status) := DemuxAll(s[n..]);
      ([item] + items, status)
  }

  // ----- Merging config packets -----

  function MergeOne(config: Option<seq<byte>>, item: Item): (Option<seq<byte>>, Item) {
    if item.Session? then (config, item)
    else if item.pts.NoPts? then (Some(item.data), item)
    else if config.Some? then (None, item.(data := config.value + item.data))
    else (None, item)
  }

  function MergeAll(config: Option<seq<byte>>, items: seq<Item>): seq<Item>
    decreases |items|
  {
    if items == [] then []
    else
      var (config', item) := MergeOne(config, items[0]);
      [item] + MergeAll(config', items[1..])
  }

  class PacketMerger {
    var config: Option<seq<byte>>

    constructor ()
      ensures config == None
    {
      config := None;
    }

    /** Remembers a config packet, or prepends the remembered one. */
    method Merge(p: Item) returns (q: Item)
      requires p.Packet?
      modifies this
      ensures (config, q) == MergeOne(old(config), p)
    {
      q := p;
      if p.pts.NoPts? {
        config := Some(p.data);
      } else if config.Some? {
        q := p.(data := config.value + p.data);
        config := None;
      }
    }
  }

  // ----- The demuxer thread -----

  /** What the sinks get: the codec and session they are opened with, if they are
      opened, whether they are disabled instead, and everything pushed to them. */
  datatype Output = Output(status: Status, disabled: bool, opening: Option<(Codec, Option<Item>)>, pushed: seq<Item>)

  const NOTHING := Output(Error, false, None, [])

  /** What the libraries and the sinks do: whether there is a decoder, whether it and
      the sinks open, and how many items the sinks take before one refuses. */
  datatype World = World(decoder: bool, opens: bool, refuses: Option<nat>)

  const WORKING := World(true, true, None)

  function Delivered(merge: bool, config: Option<seq<byte>>, items: seq<Item>): seq<Item> {
    if merge then MergeAll(config, items) else items
  }

  /** The first refused item is the last one pushed, and ends in an error. */
  function UntilRefused(w: World, items: seq<Item>, status: Status): (seq<Item>, Status) {
    if w.refuses.Some? && w.refuses.value < |items| then (items[..w.refuses.value + 1], Error) else (items, status)
  }

  function Stream(w: World, c: Codec, session: Option<Item>, s: seq<byte>): Output {
    if !w.opens then NOTHING
    else
      var (items, status) := DemuxAll(s);
      var (pushed, end) := UntilRefused(w, Delivered(MustMerge(c), None, items), status);
      Output(end, false, Some((c, session)), pushed)
  }

  /** The whole stream, as a function of its bytes. */
  function Demux(w: World, s: seq<byte>): Output {
    if |s| < 4 then NOTHING
    else
      var id := Read32(s[..4]);
      var rest := s[4..];
      if id == 0 then Output(Disabled, true, None, [])
      else if id == 1 then NOTHING
      else if CodecOf(id).None? || !w.decoder then NOTHING.(disabled := true)
      else
        var c := CodecOf(id).value;
        if !IsVideo(c) then Stream(w, c, None, rest)
        else if |rest| < HEADER_SIZE || !IsSession(rest) then NOTHING
        else
          var session := ParseSession(rest);
          if session.width == 0 || session.height == 0 then NOTHING
          else Stream(w, c, Some(session), rest[HEADER_SIZE..])
  }

  /** One record more. */
  lemma DeliverStep(merge: bool, config: Option<seq<byte>>, item: Item, rest: seq<Item>, pushed: seq<Item>)
    ensures var (config', item') := if merge then MergeOne(config, item) else (config, item);
            pushed + Delivered(merge, config, [item] + rest) == pushed + [item'] + Delivered(merge, config', rest)
  {
    var (config', item') := if merge then MergeOne(config, item) else (config, item);
    var more := Delivered(merge, config', rest);
    assert Delivered(merge, config, [item] + rest) == [item'] + more by {
      assert ([item] + rest)[0] == item && ([item] + rest)[1..] == rest;
    }
    hide Delivered, MergeOne;
    assert pushed + ([item'] + more) == pushed + [item'] + more;
  }

  /** The packet loop: reads records until the end, an error or a refusal. */
  method Loop(w: World, s: seq<byte>, merge: bool) returns (pushed: seq<Item>, status: Status)
    ensures (pushed, status) == UntilRefused(w, Delivered(merge, None, DemuxAll(s).0), DemuxAll(s).1)
  {
    hide ReadNext, MergeAll;
    var merger := new PacketMerger();
    var rest := s;
    ghost var all := Delivered(merge, None, DemuxAll(s).0);
    pushed := [];
    while true
      invariant fresh(merger)
      invariant pushed + Delivered(merge, merger.config, DemuxAll(rest).0) == all
      invariant DemuxAll(rest).1 == DemuxAll(s).1
      invariant w.refuses.Some? ==> |pushed| <= w.refuses.value
      decreases |rest|
    {
      var r := ReadNext(rest);
      if !r.Got? {
        DeliverNothing(merge, merger.config);
        assert pushed + [] == pushed == all;
        return pushed, if r.AtEnd? then Eos else Error;
      }
      DeliverStep(merge, merger.config, r.item, DemuxAll(rest[r.n..]).0, pushed);
      var item := r.item;
      if item.Packet? && merge {
        item := merger.Merge(item);
      }
      ghost var more := Delivered(merge, merger.config, DemuxAll(rest[r.n..]).0);
      assert all == pushed + [item] + more;
      pushed := pushed + [item];
      if w.refuses == Some(|pushed| - 1) {
        assert pushed == all[..|pushed|];
        return pushed, Error;
      }
      rest := rest[r.n..];
    }
  }

  lemma DeliverNothing(merge: bool, config: Option<seq<byte>>)
    ensures Delivered(merge, config, []) == []
  {
  }

  method RunDemuxer(w: World, s: seq<byte>) returns (out: Output)
    ensures out == Demux(w, s)
  {
    if |s| < 4 {
      return NOTHING;
    }
    var id := Read32(s[..4]);
    if id == 0 {
      return Output(Disabled, true, None, []);
    }
    if id == 1 {
      return NOTHING;
    }
    var codec := CodecOf(id);
    if codec.None? || !w.decoder {
      return NOTHING.(disabled := true);
    }
    var rest := s[4..];
    var session := None;
    if IsVideo(codec.value) {
      if |rest| < HEADER_SIZE || !IsSession(rest) {
        return NOTHING;
      }
      var first := ParseSession(rest);
      if first.width == 0 || first.height == 0 {
        return NOTHING;
      }
      session := Some(first);
      rest := rest[HEADER_SIZE..];
    }
    if !w.opens {
      return NOTHING;
    }
    var pushed, status := Loop(w, rest, MustMerge(codec.value));
    return Output(status, false, Some((codec.value, session)), pushed);
  }

  // ----- The documented framing -----

  predicate Legal(item: Item) {
    item.Packet? ==> 0 < |item.data| < 0x8000_0000 && (item.pts.At? ==> item.pts.value < FLAG_KEY)
  }

  ghost predicate AllLegal(items: seq<Item>) {
    forall i :: 0 <= i < |items| ==> Legal(items[i])
  }

  function Flags(pts: Pts, key: bool): u64
    requires pts.At? ==> pts.value < FLAG_KEY
  {
    (if pts.NoPts? then FLAG_CONFIG else pts.value) + (if key then FLAG_KEY else 0)
  }

  function Encode(item: Item): (b: seq<byte>)
    requires Legal(item)
    ensures |b| >= HEADER_SIZE
  {
    match item
    case Session(w, h, resized) => Write32(SESSION_BIT + (if resized then 1 else 0)) + Write32(w) + Write32(h)
    case Packet(pts, key, data) => Write64(Flags(pts, key)) + Write32(|data|) + data
  }

  function EncodeAll(items: seq<Item>): seq<byte>
    requires forall i :: 0 <= i < |items| ==> Legal(items[i])
  {
    if items == [] then [] else Encode(items[0]) + EncodeAll(items[1..])
  }

  /** The flags of a header are read back. */
  lemma FlagsRoundTrip(pts: Pts, key: bool)
    requires pts.At? ==> pts.value < FLAG_KEY
    ensures var v := Flags(pts, key); PtsOf(v) == pts && HasFlag(v, FLAG_KEY) == key && v < 2 * FLAG_CONFIG
  {
  }

  lemma SessionHeader(w: u32, h: u32, resized: bool, rest: seq<byte>)
    ensures ReadNext(Encode(Session(w, h, resized)) + rest) == Got(Session(w, h, resized), HEADER_SIZE)
  {
    var flags := SESSION_BIT + (if resized then 1 else 0);
    assert Write32(flags) == [0x80, 0, 0, if resized then 1 else 0];
    hide Write32, Read32;
    var s := Encode(Session(w, h, resized)) + rest;
    assert s[..4] == Write32(flags) && s[4..8] == Write32(w) && s[8..12] == Write32(h);
    RoundTrip32(w, s[4..8]);
    RoundTrip32(h, s[8..12]);
    assert s[0] == s[..4][0] && s[3] == s[..4][3];
  }

  lemma PacketHeader(pts: Pts, key: bool, data: seq<byte>, rest: seq<byte>)
    requires Legal(Packet(pts, key, data))
    ensures var p := Packet(pts, key, data); ReadNext(Encode(p) + rest) == Got(p, HEADER_SIZE + |data|)
  {
    var v := Flags(pts, key);
    var s := Encode(Packet(pts, key, data)) + rest;
    FlagsRoundTrip(pts, key);
    assert s[..8] == Write64(v) && s[8..12] == Write32(|data|) && s[12..12 + |data|] == data;
    RoundTrip64(v, s[..8]);
    RoundTrip32(|data|, s[8..12]);
    NotSession(v);
    assert s[0] == Write64(v)[0];
  }

  lemma NotSession(v: u64)
    requires v < 2 * FLAG_CONFIG
    ensures Write64(v)[0] < 0x80
  {
    assert Write64(v)[0] == (v / 0x1_0000_0000) / 0x1_0000 / 0x100;
  }

  /** A record is read back exactly, whatever follows it. */
  lemma ReadEncoded(item: Item, rest: seq<byte>)
    requires Legal(item)
    ensures ReadNext(Encode(item) + rest) == Got(item, |Encode(item)|)
  {
    match item
    case Session(w, h, resized) => SessionHeader(w, h, resized, rest);
    case Packet(pts, key, data) => PacketHeader(pts, key, data, rest);
  }

  /** Main theorem: demuxing inverts the framing, for every list of records. */
  lemma {:induction false} DemuxInverts(items: seq<Item>)
    requires AllLegal(items)
    ensures DemuxAll(EncodeAll(items)) == (items, Eos)
  {
    hide ReadNext, Encode;
    if items == [] {
      assert ReadNext(EncodeAll(items)).AtEnd?;
    } else {
      var b := Encode(items[0]);
      var rest := EncodeAll(items[1..]);
      ReadEncoded(items[0], rest);
      assert (b + rest)[|b|..] == rest;
      DemuxInverts(items[1..]);
      assert items == [items[0]] + items[1..];
    }
  }

  /** How a stream ends: less than a header is the end; a packet without data, of a
      size beyond a signed integer, or cut off, is an error. The records before are
      delivered all the same. */
  lemma {:induction false} StreamEnds(items: seq<Item>, tail: seq<byte>)
    requires AllLegal(items)
    ensures |tail| < 12 ==> DemuxAll(EncodeAll(items) + tail) == (items, Eos)
    ensures |tail| >= 12 && tail[0] < 0x80 &&
            (var len := Read32(tail[8..12]); len == 0 || len >= 0x8000_0000 || |tail| - 12 < len) ==>
              DemuxAll(EncodeAll(items) + tail) == (items, Error)
  {
    if items == [] {
      assert EncodeAll(items) + tail == tail;
    } else {
      hide ReadNext, Encode;
      var b := Encode(items[0]);
      var rest := EncodeAll(items[1..]) + tail;
      assert EncodeAll(items) + tail == b + rest;
      ReadEncoded(items[0], rest);
      assert (b + rest)[|b|..] == rest;
      StreamEnds(items[1..], tail);
      assert items == [items[0]] + items[1..];
    }
  }

  /** A stream cut anywhere yields a prefix of its records. */
  lemma {:induction false} CutStream(s: seq<byte>, k: nat)
    requires k <= |s|
    ensures DemuxAll(s[..k]).0 <= DemuxAll(s).0
    decreases |s|
  {
    hide ReadNext;
    var r := ReadNext(s[..k]);
    if r.Got? {
      ReadStable(s, k);
      assert s[..k][r.n..] == s[r.n..][..k - r.n];
      CutStream(s[r.n..], k - r.n);
    }
  }

  /** A record read from the beginning of a stream is a record of the stream. */
  lemma ReadStable(s: seq<byte>, k: nat)
    requires k <= |s| && ReadNext(s[..k]).Got?
    ensures ReadNext(s) == ReadNext(s[..k])
  {
    var p := s[..k];
    assert p[..8] == s[..8] && p[8..12] == s[8..12] && p[4..8] == s[4..8];
    if !IsSession(p) {
      var len := Read32(p[8..12]);
      assert p[HEADER_SIZE..HEADER_SIZE + len] == s[HEADER_SIZE..HEADER_SIZE + len];
    }
  }

  // ----- No byte is lost by merging -----

  ghost function RawBytes(items: seq<Item>): seq<byte> {
    if items == [] then []
    else (if items[0].Packet? then items[0].data else []) + RawBytes(items[1..])
  }

  /** The bytes the decoder sees: it skips config packets. */
  ghost function DecodedBytes(items: seq<Item>): seq<byte> {
    if items == [] then []
    else (if items[0].Packet? && items[0].pts.At? then items[0].data else []) + DecodedBytes(items[1..])
  }

  /** Every config packet is followed, sessions aside, by a media packet. */
  ghost predicate ConfigsUsed(pending: bool, items: seq<Item>)
    decreases |items|
  {
    if items == [] then !pending
    else if items[0].Session? then ConfigsUsed(pending, items[1..])
    else if items[0].pts.NoPts? then !pending && ConfigsUsed(true, items[1..])
    else ConfigsUsed(false, items[1..])
  }

  ghost function Bytes(config: Option<seq<byte>>): seq<byte> {
    if config.Some? then config.value else []
  }

  lemma {:induction false} MergeBytes(config: Option<seq<byte>>, items: seq<Item>)
    requires AllLegal(items) && (config.Some? ==> config.value != [])
    ensures var out := DecodedBytes(MergeAll(config, items));
            var whole := Bytes(config) + RawBytes(items);
            if ConfigsUsed(config.Some?, items) then out == whole else |out| < |whole|
    decreases |items|
  {
    if items == [] {
      assert Bytes(config) + [] == Bytes(config);
    } else {
      var (config', item) := MergeOne(config, items[0]);
      MergeBytes(config', items[1..]);
      FirstBytes(item, MergeAll(config', items[1..]));
      MergeBytesStep(config, items[0], DecodedBytes(MergeAll(config', items[1..])), RawBytes(items[1..]));
    }
  }

  /** How one record contributes to both sides. */
  lemma MergeBytesStep(config: Option<seq<byte>>, first: Item, out: seq<byte>, raw: seq<byte>)
    requires config.Some? ==> config.value != []
    ensures var (config', item) := MergeOne(config, first);
            var whole' := Bytes(config') + raw;
            var whole := Bytes(config) + ((if first.Packet? then first.data else []) + raw);
            var all := (if item.Packet? && item.pts.At? then item.data else []) + out;
            && (first.Packet? && first.pts.NoPts? && config.Some? ==> |whole| > |whole'| && |all| == |out|)
            && (!(first.Packet? && first.pts.NoPts? && config.Some?) ==>
                  (out == whole' ==> all == whole) && |whole| - |all| == |whole'| - |out|)
  {
    var (config', item) := MergeOne(config, first);
    if first.Packet? && first.pts.At? {
      assert item.data == Bytes(config) + first.data;
      assert Bytes(config) + (first.data + raw) == item.data + raw;
      assert Bytes(config') + raw == raw;
    } else {
      assert [] + out == out && [] + raw == raw;
    }
  }

  lemma FirstBytes(item: Item, rest: seq<Item>)
    ensures DecodedBytes([item] + rest) ==
            (if item.Packet? && item.pts.At? then item.data else []) + DecodedBytes(rest)
  {
    assert ([item] + rest)[1..] == rest;
  }

  /** The config packet that is remembered after some items: the last one, unless a
      media packet followed. */
  ghost function Remembered(items: seq<Item>): Option<seq<byte>> {
    if items == [] then None
    else
      var last := items[|items| - 1];
      if last.Session? then Remembered(items[..|items| - 1])
      else if last.pts.NoPts? then Some(last.data)
      else None
  }

  /** How an item is delivered: a session or config packet as it is; a media packet
      with its own timestamp and flag, and its data behind the config packet that
      precedes it without a media packet in between. */
  ghost predicate DeliveredAs(before: seq<Item>, item: Item, out: Item) {
    if item.Packet? && item.pts.At? then
      && out.Packet? && out.pts == item.pts && out.key == item.key
      && out.data == (match Remembered(before) case None => [] case Some(c) => c) + item.data
    else out == item
  }

  lemma MergeFirst(before: seq<Item>, item: Item)
    ensures var (config, out) := MergeOne(Remembered(before), item);
            config == Remembered(before + [item]) && DeliveredAs(before, item, out)
  {
    assert (before + [item])[..|before|] == before;
    assert item.Packet? ==> [] + item.data == item.data;
  }

  lemma {:induction false} MergeEach(before: seq<Item>, items: seq<Item>)
    ensures var out := MergeAll(Remembered(before), items);
            && |out| == |items|
            && forall i :: 0 <= i < |items| ==> DeliveredAs(before + items[..i], items[i], out[i])
    decreases |items|
  {
    hide Remembered, DeliveredAs, MergeOne;
    if items != [] {
      var first := MergeOne(Remembered(before), items[0]).1;
      var before', rest := before + [items[0]], items[1..];
      MergeFirst(before, items[0]);
      MergeEach(before', rest);
      var out, more := MergeAll(Remembered(before), items), MergeAll(Remembered(before'), rest);
      assert out == [first] + more;
      hide MergeAll;
      forall i | 0 <= i < |items| ensures DeliveredAs(before + items[..i], items[i], out[i]) {
        if i == 0 {
          assert before + items[..0] == before;
        } else {
          assert before' + rest[..i - 1] == before + items[..i];
          assert rest[i - 1] == items[i] && out[i] == more[i - 1];
        }
      }
    }
  }

  /** Main theorem: merging delivers one item for each item, and changes nothing but
      the data of a media packet behind a config packet. */
  lemma MergingDeliversEach(items: seq<Item>)
    ensures |MergeAll(None, items)| == |items|
    ensures forall i :: 0 <= i < |items| ==> DeliveredAs(items[..i], items[i], MergeAll(None, items)[i])
  {
    hide DeliveredAs, MergeAll;
    MergeEach([], items);
    forall i | 0 <= i < |items| ensures DeliveredAs(items[..i], items[i], MergeAll(None, items)[i]) {
      assert [] + items[..i] == items[..i];
    }
  }

  /** Main theorem: what the decoder gets is every raw byte of the stream, in
      order, exactly when every config packet is followed by a media packet. */
  lemma MergingKeepsBytes(items: seq<Item>)
    requires AllLegal(items)
    ensures DecodedBytes(MergeAll(None, items)) == RawBytes(items) <==> ConfigsUsed(false, items)
  {
    MergeBytes(None, items);
    assert Bytes(None) + RawBytes(items) == RawBytes(items);
  }

  /** The whole way: a well-formed video stream opens the sinks with its codec and
      first session and delivers its records, merged for H.264 and H.265. */
  lemma WholeVideoStream(id: u32, first: Item, items: seq<Item>)
    requires CodecOf(id).Some? && IsVideo(CodecOf(id).value)
    requires first.Session? && first.width != 0 && first.height != 0 && AllLegal(items)
    ensures var c := CodecOf(id).value;
            Demux(WORKING, Write32(id) + Encode(first) + EncodeAll(items)) ==
            Output(Eos, false, Some((c, Some(first))), Delivered(MustMerge(c), None, items))
  {
    hide ReadNext, DemuxAll, Delivered, CodecOf, Write32, Read32, Encode, EncodeAll, IsSession, ParseSession;
    KnownIds(id);
    var body := EncodeAll(items);
    StreamParts(id, first, body);
    FirstSession(first, body);
    DemuxInverts(items);
  }

  /** A video stream that does not start with the session of a non-empty video opens
      no sink. */
  lemma BadStart(w: World, id: u32, first: Item, items: seq<Item>)
    requires CodecOf(id).Some? && IsVideo(CodecOf(id).value) && Legal(first) && AllLegal(items)
    requires first.Packet? || first.width == 0 || first.height == 0
    ensures var out := Demux(w, Write32(id) + Encode(first) + EncodeAll(items));
            out.status.Error? && out.opening.None? && out.pushed == []
  {
    hide DemuxAll, Delivered, CodecOf, Write32, Read32, Encode, EncodeAll, IsSession, ParseSession, ReadNext;
    var body := EncodeAll(items);
    var all := Write32(id) + Encode(first) + body;
    assert all[..4] == Write32(id) && all[4..] == Encode(first) + body;
    RoundTrip32(id, all[..4]);
    KnownIds(id);
    if first.Packet? {
      FirstPacket(first, body);
    } else {
      FirstSession(first, body);
    }
  }

  lemma KnownIds(id: u32)
    requires CodecOf(id).Some?
    ensures id > 1
  {
  }

  lemma FirstPacket(first: Item, body: seq<byte>)
    requires Legal(first) && first.Packet?
    ensures !IsSession(Encode(first) + body)
  {
    hide Encode, ParseSession;
    ReadEncoded(first, body);
    assert IsSession(Encode(first) + body) ==> ReadNext(Encode(first) + body).item == ParseSession(Encode(first) + body);
    SessionsParse(Encode(first) + body);
  }

  lemma SessionsParse(s: seq<byte>)
    requires |s| >= HEADER_SIZE
    ensures ParseSession(s).Session?
  {
  }

  /** Whatever refuses or is cut off, the sinks only ever get a beginning of what a
      working world delivers from the whole stream: up to and including the first
      item they refuse, which is an error. An end without error means that nothing
      was held back. */
  lemma DeliversPrefix(w: World, s: seq<byte>)
    ensures var out, all := Demux(w, s), Demux(WORKING, s);
            && out.pushed <= all.pushed
            && (out.opening.Some? ==>
                  && out.opening == all.opening
                  && (w.refuses.None? || w.refuses.value >= |all.pushed| ==>
                        out.pushed == all.pushed && out.status == all.status)
                  && (w.refuses.Some? && w.refuses.value < |all.pushed| ==>
                        |out.pushed| == w.refuses.value + 1 && out.status.Error?))
            && (out.status.Eos? ==> out.pushed == all.pushed && all.status.Eos?)
  {
    hide DemuxAll, Delivered, CodecOf, Read32, IsSession, ParseSession;
  }

  /** When the sinks are not opened although the stream goes on. */
  lemma NotOpened(w: World, s: seq<byte>)
    ensures !w.decoder || !w.opens ==> Demux(w, s).opening.None? && Demux(w, s).pushed == []
    ensures |s| >= 4 && Read32(s[..4]) > 1 && (!w.decoder || forall c: Codec :: Read32(s[..4]) != Ascii(Name(c))) ==>
              Demux(w, s) == Output(Error, true, None, [])
    ensures |s| < 4 ==> Demux(w, s) == Output(Error, false, None, [])
    ensures s[..Min(4, |s|)] == [0, 0, 0, 0] ==> Demux(w, s) == Output(Disabled, true, None, [])
    ensures s[..Min(4, |s|)] == [0, 0, 0, 1] ==> Demux(w, s) == Output(Error, false, None, [])
  {
    hide DemuxAll, Delivered, CodecOf, IsSession, ParseSession;
    if |s| >= 4 && CodecOf(Read32(s[..4])).Some? {
      var c := CodecOf(Read32(s[..4])).value;
      CodecNames(Read32(s[..4]), c);
      assert Read32(s[..4]) == Ascii(Name(c));
    }
    hide Ascii;
    assert [0, 0, 0, 0][..2] == [0, 0] && [0, 0, 0, 0][2..4] == [0, 0];
    assert [0, 0, 0, 1][..2] == [0, 0] && [0, 0, 0, 1][2..4] == [0, 1];
    assert Read32([0, 0, 0, 0]) == 0 && Read32([0, 0, 0, 1]) == 1;
  }

  lemma StreamParts(id: u32, first: Item, body: seq<byte>)
    requires first.Session?
    ensures var s := Write32(id) + Encode(first) + body;
            |s| >= 16 && Read32(s[..4]) == id && s[4..] == Encode(first) + body
  {
    hide Write32, Read32, Encode;
    var s := Write32(id) + Encode(first) + body;
    assert s[..4] == Write32(id);
    RoundTrip32(id, s[..4]);
  }

  lemma FirstSession(first: Item, body: seq<byte>)
    requires first.Session?
    ensures var s := Encode(first) + body;
            IsSession(s) && ParseSession(s) == first && s[HEADER_SIZE..] == body
  {
    ReadEncoded(first, body);
    assert |Encode(first)| == HEADER_SIZE;
  }
}
