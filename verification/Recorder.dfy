/** The recorder: two packet queues filled by the demuxers, and a thread that
    writes the header, then every packet with its timestamp made relative to an
    origin chosen once. A video packet is written only when the next one (or the
    end) gives its duration. */
module Recorder {
  import opened Common
  import opened Timestamps

  /** A packet without timestamp is a config packet. */
  datatype Packet = Config(data: nat) | Media(pts: int, data: nat)

  // ----- Shared state and its producers -----

  datatype Shared = Shared(
    video: bool, audio: bool, stopped: bool,
    videoInit: bool, audioInit: bool, videoConfig: bool, audioConfig: bool,
    vq: seq<Packet>, aq: seq<Packet>)

  datatype Sink =
    | VideoOpen(expectsConfig: bool)
    | AudioOpen(expectsConfig: bool)
    | AudioDisable
    | VideoPush(p: Packet)
    | AudioPush(p: Packet)
    | Stop // closing either sink, or an explicit stop

  predicate SinkEnabled(sh: Shared, a: Sink) {
    match a
    case VideoOpen(_) => sh.video && !sh.videoInit
    case AudioOpen(_) => sh.audio && !sh.audioInit
    case AudioDisable => sh.audio && !sh.audioInit
    case VideoPush(_) => sh.video && sh.videoInit
    case AudioPush(_) => sh.audio && sh.audioInit
    case Stop => true
  }

  function SinkStep(sh: Shared, a: Sink): Shared {
    match a
    case VideoOpen(c) => if sh.stopped then sh else sh.(videoInit := true, videoConfig := c)
    case AudioOpen(c) => sh.(audioInit := true, audioConfig := c)
    case AudioDisable => sh.(audio := false, audioInit := true)
    case VideoPush(p) => if sh.stopped then sh else sh.(vq := sh.vq + [p])
    case AudioPush(p) => if sh.stopped then sh else sh.(aq := sh.aq + [p])
    case Stop => sh.(stopped := true)
  }

  // ----- The recording thread -----

  /** Which packets decided the origin of the timestamps. */
  datatype Rule = Unset | OnlyVideo | OnlyAudio | Both | StoppedVideo

  datatype Written = Written(p: Packet, relative: int, rescaled: i64, pts: i64, duration: Option<int>)

  /** What one stream got so far. */
  datatype Out = Out(last: i64, written: seq<Written>)

  datatype Pc =
    | WaitHeader
    | WriteHeader(v: Option<Packet>, a: Option<Packet>)
    | Loop
    | Work
    | Finish
    | Ended(ok: bool)
    | Crashed

  /** The thread's local variables. */
  datatype Local = Local(v: Option<Packet>, a: Option<Packet>, prev: Option<Packet>,
                         origin: int, rule: Rule)

  datatype State = State(sh: Shared, pc: Pc, l: Local, vout: Out, aout: Out,
                         vIn: seq<Packet>, aIn: seq<Packet>) // every packet accepted

  predicate HeaderReady(sh: Shared) {
    || sh.stopped
    || !( || (sh.video && !sh.videoInit)
          || (sh.audio && !sh.audioInit)
          || (sh.video && sh.videoConfig && sh.vq == [])
          || (sh.audio && sh.audioConfig && sh.aq == []))
  }

  function Head(q: seq<Packet>): Option<Packet> {
    if q == [] then None else Some(q[0])
  }

  function Tail(q: seq<Packet>): seq<Packet> {
    if q == [] then [] else q[1..]
  }

  function ConfigV(sh: Shared): Option<Packet> {
    if sh.videoConfig then Head(sh.vq) else None
  }

  function ConfigA(sh: Shared): Option<Packet> {
    if sh.audioConfig then Head(sh.aq) else None
  }

  /** The queue without its first packet, if that was taken. */
  function After(q: seq<Packet>, p: Option<Packet>): seq<Packet> {
    if p.Some? then Tail(q) else q
  }

  function DropV(s: State): State {
    s.(sh := s.sh.(vq := After(s.sh.vq, ConfigV(s.sh))))
  }

  function DropA(s: State): State {
    s.(sh := s.sh.(aq := After(s.sh.aq, ConfigA(s.sh))))
  }

  /** Leaves the header wait: nothing to record, or the first packets. */
  function TakeHeader(s: State): State {
    var sh, v, a := s.sh, ConfigV(s.sh), ConfigA(s.sh);
    if sh.stopped && sh.video && sh.vq == [] then s.(pc := Ended(false))
    else if (v.Some? && !sh.video) || (a.Some? && !sh.audio) then s.(pc := Crashed)
    else DropA(DropV(s)).(pc := WriteHeader(v, a))
  }

  /** The first packet of a stream that needs one must be a config packet. */
  function PutHeader(s: State, ok: bool): State
    requires s.pc.WriteHeader?
  {
    if (s.pc.v.Some? && s.pc.v.value.Media?) || (s.pc.a.Some? && s.pc.a.value.Media?) || !ok
    then s.(pc := Ended(false))
    else s.(pc := Loop)
  }

  predicate LoopReady(s: State) {
    || s.sh.stopped
    || (s.sh.video && s.l.v.None? && s.sh.vq != [])
    || (s.sh.audio && s.l.a.None? && s.sh.aq != [])
  }

  /** An empty hand filled from its queue. */
  function FillV(s: State): State {
    if s.l.v.Some? then s else s.(sh := s.sh.(vq := Tail(s.sh.vq)), l := s.l.(v := Head(s.sh.vq)))
  }

  function FillA(s: State): State {
    if s.l.a.Some? then s else s.(sh := s.sh.(aq := Tail(s.sh.aq)), l := s.l.(a := Head(s.sh.aq)))
  }

  function FillBoth(s: State): State {
    FillA(FillV(s))
  }

  /** The critical section of the loop. */
  function TakePackets(s: State): State {
    var sh, l := s.sh, s.l;
    if (!sh.video && (l.v.Some? || sh.vq != [])) || (!sh.audio && (l.a.Some? || sh.aq != []))
    then s.(pc := Crashed)
    else
      var t := FillBoth(s);
      if t.l.v.None? && t.l.a.None? then
        if !sh.stopped || t.sh.vq != [] || t.sh.aq != [] then s.(pc := Crashed) else t.(pc := Finish)
      else t.(pc := Work)
  }

  predicate IsMedia(p: Option<Packet>) {
    p.Some? ==> p.value.Media?
  }

  function DropConfig(p: Option<Packet>): Option<Packet> {
    if p.Some? && p.value.Config? then None else p
  }

  /** Chooses the origin: with both streams it needs a packet of each, unless the
      recording is stopped. */
  function ChooseOrigin(sh: Shared, v: Option<Packet>, a: Option<Packet>): (Rule, int)
    requires IsMedia(v) && IsMedia(a)
  {
    if !sh.audio && v.Some? then (OnlyVideo, v.value.pts)
    else if !sh.video && a.Some? then (OnlyAudio, a.value.pts)
    else if sh.video && sh.audio && v.Some? && a.Some? then (Both, Min(v.value.pts, a.value.pts))
    else if sh.stopped && v.Some? then (StoppedVideo, v.value.pts)
    else (Unset, 0)
  }

  /** Submits one packet to a stream. */
  function Submit(out: Out, p: Packet, origin: int, rescaled: i64, duration: Option<int>): Out
    requires p.Media?
  {
    var pts := FixPts(out.last, rescaled);
    Out(pts, out.written + [Written(p, p.pts - origin, rescaled, pts, duration)])
  }

  /** The results of the calls into the muxer during one turn. */
  datatype Muxer = Muxer(vOk: bool, vRescaled: i64, aOk: bool, aRescaled: i64)

  /** The state after config packets were dropped and the origin was chosen. */
  function Chosen(s: State): State {
    var v, a := DropConfig(s.l.v), DropConfig(s.l.a);
    var (rule, origin) := if s.l.rule.Unset? then ChooseOrigin(s.sh, v, a) else (s.l.rule, s.l.origin);
    s.(l := s.l.(v := v, a := a, rule := rule, origin := origin))
  }

  /** The unlocked part of a turn: drop config packets, choose the origin if
      needed, write the previous video packet and the audio packet. */
  function DoWork(s: State, m: Muxer): State
    requires IsMedia(s.l.prev)
  {
    var s0 := Chosen(s);
    if s0.l.rule.Unset? then
      if s.sh.stopped then s0.(pc := Ended(false)) else s0.(pc := Loop)
    else
      var s1 := PutVideo(s0, m);
      if s1.pc.Ended? then s1 else PutAudio(s1, m)
  }

  function PutVideo(s: State, m: Muxer): State
    requires IsMedia(s.l.prev) && IsMedia(s.l.v)
  {
    if s.l.v.None? then s
    else
      var next := s.l.v.value;
      var l' := s.l.(prev := s.l.v, v := None);
      if s.l.prev.None? then s.(l := l')
      else
        var p := s.l.prev.value;
        var out := Submit(s.vout, p, s.l.origin, m.vRescaled, Some(next.pts - p.pts));
        if m.vOk then s.(l := l', vout := out) else s.(vout := out, pc := Ended(false))
  }

  function PutAudio(s: State, m: Muxer): State
    requires IsMedia(s.l.a)
  {
    if s.l.a.None? then s.(pc := Loop)
    else
      var out := Submit(s.aout, s.l.a.value, s.l.origin, m.aRescaled, None);
      if m.aOk then s.(l := s.l.(a := None), aout := out, pc := Loop) else s.(aout := out, pc := Ended(false))
  }

  const LAST_DURATION := 100000

  /** Writes the last video packet and the trailer. */
  function DoFinish(s: State, rescaled: i64, trailerOk: bool): State
    requires IsMedia(s.l.prev)
  {
    var vout := if s.l.prev.None? then s.vout
                else Submit(s.vout, s.l.prev.value, s.l.origin, rescaled, Some(LAST_DURATION));
    s.(vout := vout, l := s.l.(prev := None), pc := Ended(trailerOk))
  }

  // ----- Runs -----

  datatype Action =
    | SinkAction(a: Sink)
    | HeaderTaken
    | HeaderWritten(ok: bool)
    | PacketsTaken
    | Worked(m: Muxer)
    | Finished(rescaled: i64, trailerOk: bool)

  predicate Enabled(s: State, a: Action) {
    match a
    case SinkAction(k) => SinkEnabled(s.sh, k)
    case HeaderTaken => s.pc.WaitHeader? && HeaderReady(s.sh)
    case HeaderWritten(_) => s.pc.WriteHeader?
    case PacketsTaken => s.pc.Loop? && LoopReady(s)
    case Worked(m) => s.pc.Work? && IsMedia(s.l.prev)
    case Finished(_, _) => s.pc.Finish? && IsMedia(s.l.prev)
  }

  function Accepted(s: State, k: Sink): State {
    if s.sh.stopped then s
    else if k.VideoPush? then s.(vIn := s.vIn + [k.p])
    else if k.AudioPush? then s.(aIn := s.aIn + [k.p])
    else s
  }

  function Exec(s: State, a: Action): State
    requires Enabled(s, a)
  {
    match a
    case SinkAction(k) => Accepted(s, k).(sh := SinkStep(s.sh, k))
    case HeaderTaken => TakeHeader(s)
    case HeaderWritten(ok) => PutHeader(s, ok)
    case PacketsTaken => TakePackets(s)
    case Worked(m) => DoWork(s, m)
    case Finished(r, ok) => DoFinish(s, r, ok)
  }

  ghost predicate Run(s: State, actions: seq<Action>, t: State)
    decreases |actions|
  {
    if actions == [] then s == t
    else Enabled(s, actions[0]) && Run(Exec(s, actions[0]), actions[1..], t)
  }

  function Start(video: bool, audio: bool): State {
    State(Shared(video, audio, false, false, false, false, false, [], []), WaitHeader,
          Local(None, None, None, 0, Unset), Out(NOPTS, []), Out(NOPTS, []), [], [])
  }

  /** When only enabled streams have packets, the config packets are taken. */
  lemma HeaderIsTaken(s: State)
    requires (!s.sh.video ==> s.sh.vq == []) && (!s.sh.audio ==> s.sh.aq == [])
    ensures s.sh.stopped && s.sh.video && s.sh.vq == [] ==> TakeHeader(s) == s.(pc := Ended(false))
    ensures !(s.sh.stopped && s.sh.video && s.sh.vq == []) ==>
              TakeHeader(s) == DropA(DropV(s)).(pc := WriteHeader(ConfigV(s.sh), ConfigA(DropV(s).sh)))
  {
  }

  /** Without a failed assertion, the critical section fills both hands. */
  lemma TakenIsFilled(s: State)
    requires !TakePackets(s).pc.Crashed?
    ensures var t := FillBoth(s);
            && TakePackets(s) == t.(pc := if t.l.v.None? && t.l.a.None? then Finish else Work)
            && (t.l.v.None? && t.l.a.None? ==> s.sh.stopped && t.sh.vq == [] && t.sh.aq == [])
  {
  }

  // ----- The recorder object -----

  /** The recorder; each method is one critical section, or the unlocked part of one
      turn of the recording thread. */
  class RecorderObject {
    var video: bool
    var audio: bool
    var stopped: bool
    var videoInit: bool
    var audioInit: bool
    var videoExpectsConfig: bool
    var audioExpectsConfig: bool
    var videoQueue: seq<Packet>
    var audioQueue: seq<Packet>
    const videoStream: Stream
    const audioStream: Stream
    // The recording thread
    var pc: Pc
    var videoPkt: Option<Packet>
    var audioPkt: Option<Packet>
    var videoPktPrevious: Option<Packet>
    var ptsOrigin: Option<int>
    // History
    ghost var rule: Rule
    ghost var videoWritten: seq<Written>
    ghost var audioWritten: seq<Written>
    ghost var videoIn: seq<Packet>
    ghost var audioIn: seq<Packet>

    ghost predicate Valid()
      reads this
    {
      videoStream != audioStream && (ptsOrigin.None? <==> rule.Unset?)
    }

    ghost function View(): State
      reads this, videoStream, audioStream
    {
      State(Shared(video, audio, stopped, videoInit, audioInit, videoExpectsConfig, audioExpectsConfig,
                   videoQueue, audioQueue),
            pc,
            Local(videoPkt, audioPkt, videoPktPrevious, if ptsOrigin.Some? then ptsOrigin.value else 0, rule),
            Out(videoStream.lastPts, videoWritten), Out(audioStream.lastPts, audioWritten),
            videoIn, audioIn)
    }

    constructor (withVideo: bool, withAudio: bool)
      ensures Valid() && fresh(videoStream) && fresh(audioStream) && View() == Start(withVideo, withAudio)
    {
      video, audio, stopped := withVideo, withAudio, false;
      videoInit, audioInit, videoExpectsConfig, audioExpectsConfig := false, false, false, false;
      videoQueue, audioQueue := [], [];
      videoStream := new Stream();
      audioStream := new Stream();
      pc, videoPkt, audioPkt, videoPktPrevious, ptsOrigin := WaitHeader, None, None, None, None;
      rule, videoWritten, audioWritten, videoIn, audioIn := Unset, [], [], [], [];
    }

    method OpenVideo(expectsConfig: bool) returns (ok: bool)
      requires Valid() && SinkEnabled(View().sh, VideoOpen(expectsConfig))
      modifies `videoInit, `videoExpectsConfig
      ensures View() == Exec(old(View()), SinkAction(VideoOpen(expectsConfig)))
      ensures ok == !stopped
    {
      if stopped {
        return false;
      }
      videoExpectsConfig := expectsConfig;
      videoInit := true;
      return true;
    }

    method OpenAudio(expectsConfig: bool)
      requires Valid() && SinkEnabled(View().sh, AudioOpen(expectsConfig))
      modifies `audioInit, `audioExpectsConfig
      ensures View() == Exec(old(View()), SinkAction(AudioOpen(expectsConfig)))
    {
      audioExpectsConfig := expectsConfig;
      audioInit := true;
    }

    method DisableAudio()
      requires Valid() && SinkEnabled(View().sh, AudioDisable)
      modifies `audio, `audioInit
      ensures View() == Exec(old(View()), SinkAction(AudioDisable))
    {
      audio := false;
      audioInit := true;
    }

    method PushVideo(p: Packet) returns (ok: bool)
      requires Valid() && SinkEnabled(View().sh, VideoPush(p))
      modifies `videoQueue, `videoIn
      ensures View() == Exec(old(View()), SinkAction(VideoPush(p)))
      ensures ok == !stopped
    {
      if stopped {
        return false;
      }
      videoQueue := videoQueue + [p];
      videoIn := videoIn + [p];
      return true;
    }

    method PushAudio(p: Packet) returns (ok: bool)
      requires Valid() && SinkEnabled(View().sh, AudioPush(p))
      modifies `audioQueue, `audioIn
      ensures View() == Exec(old(View()), SinkAction(AudioPush(p)))
      ensures ok == !stopped
    {
      if stopped {
        return false;
      }
      audioQueue := audioQueue + [p];
      audioIn := audioIn + [p];
      return true;
    }

    method RequestStop()
      requires Valid()
      modifies `stopped
      ensures View() == Exec(old(View()), SinkAction(Stop))
    {
      stopped := true;
    }

    /** Leaves the header wait with the config packets. The code asserts that a
        stream with packets is enabled. */
    method TakeConfigs()
      requires Valid() && pc.WaitHeader?
      requires (!video ==> videoQueue == []) && (!audio ==> audioQueue == [])
      modifies `videoQueue, `audioQueue, `pc
      ensures Valid() && View() == TakeHeader(old(View()))
    {
      hide TakeHeader, ConfigV, ConfigA, DropV, DropA;
      HeaderIsTaken(View());
      ghost var t := DropA(DropV(View()));
      if stopped && video && videoQueue == [] {
        pc := Ended(false);
        return;
      }
      var v := TakeVideoConfig();
      var a := TakeAudioConfig();
      assert View() == t;
      pc := WriteHeader(v, a);
    }

    method TakeVideoConfig() returns (v: Option<Packet>)
      requires !video ==> videoQueue == []
      modifies `videoQueue
      ensures v == ConfigV(old(View()).sh) && View() == DropV(old(View()))
    {
      v := None;
      if videoExpectsConfig && videoQueue != [] {
        assert video;
        v := Some(videoQueue[0]);
        videoQueue := videoQueue[1..];
      }
    }

    method TakeAudioConfig() returns (a: Option<Packet>)
      requires !audio ==> audioQueue == []
      modifies `audioQueue
      ensures a == ConfigA(old(View()).sh) && View() == DropA(old(View()))
    {
      a := None;
      if audioExpectsConfig && audioQueue != [] {
        assert audio;
        a := Some(audioQueue[0]);
        audioQueue := audioQueue[1..];
      }
    }

    method PutConfigs(ok: bool)
      requires Valid() && pc.WriteHeader?
      modifies `pc
      ensures Valid() && View() == Exec(old(View()), HeaderWritten(ok))
    {
      if pc.v.Some? && pc.v.value.Media? {
        pc := Ended(false);
      } else if pc.a.Some? && pc.a.value.Media? {
        pc := Ended(false);
      } else {
        pc := if ok then Loop else Ended(false);
      }
    }

    /** Fills an empty hand from its queue. */
    method TakeVideo()
      modifies `videoPkt, `videoQueue
      ensures View() == FillV(old(View()))
    {
      if videoPkt.None? && videoQueue != [] {
        videoPkt := Some(videoQueue[0]);
        videoQueue := videoQueue[1..];
      }
    }

    method TakeAudio()
      modifies `audioPkt, `audioQueue
      ensures View() == FillA(old(View()))
    {
      if audioPkt.None? && audioQueue != [] {
        audioPkt := Some(audioQueue[0]);
        audioQueue := audioQueue[1..];
      }
    }

    /** The critical section of the loop. What the code asserts there is required
        here; `RecordsEverything` shows that it always holds. */
    method FillHands()
      requires Valid() && pc.Loop? && !TakePackets(View()).pc.Crashed?
      modifies `videoPkt, `audioPkt, `videoQueue, `audioQueue, `pc
      ensures Valid() && View() == TakePackets(old(View()))
    {
      hide TakePackets, FillA, FillV, Head, Tail;
      ghost var t := FillBoth(View());
      TakenIsFilled(View());
      TakeVideo();
      TakeAudio();
      assert View() == t;
      if stopped && videoPkt.None? && audioPkt.None? {
        assert videoQueue == [] && audioQueue == [];
        pc := Finish;
        return;
      }
      assert videoPkt.Some? || audioPkt.Some?;
      pc := Work;
    }

    method DropConfigs()
      modifies `videoPkt, `audioPkt
      ensures videoPkt == DropConfig(old(videoPkt)) && audioPkt == DropConfig(old(audioPkt))
    {
      if videoPkt.Some? && videoPkt.value.Config? {
        videoPkt := None;
      }
      if audioPkt.Some? && audioPkt.value.Config? {
        audioPkt := None;
      }
    }

    /** Drops config packets and chooses the origin if it is not set. */
    method PickOrigin()
      requires Valid()
      modifies `videoPkt, `audioPkt, `ptsOrigin, `rule
      ensures Valid() && View() == Chosen(old(View()))
    {
      DropConfigs();
      if ptsOrigin.None? {
        ChooseOnce();
      }
    }

    /** The four rules for the origin. */
    method ChooseOnce()
      requires Valid() && ptsOrigin.None? && IsMedia(videoPkt) && IsMedia(audioPkt)
      modifies `ptsOrigin, `rule
      ensures Valid()
      ensures (rule, if ptsOrigin.Some? then ptsOrigin.value else 0) == ChooseOrigin(View().sh, videoPkt, audioPkt)
    {
      if !audio && videoPkt.Some? {
        ptsOrigin, rule := Some(videoPkt.value.pts), OnlyVideo;
      } else if !video && audioPkt.Some? {
        ptsOrigin, rule := Some(audioPkt.value.pts), OnlyAudio;
      } else if video && audio && videoPkt.Some? && audioPkt.Some? {
        ptsOrigin, rule := Some(Min(videoPkt.value.pts, audioPkt.value.pts)), Both;
      } else if stopped && videoPkt.Some? {
        ptsOrigin, rule := Some(videoPkt.value.pts), StoppedVideo;
      }
    }

    method WriteVideo(p: Packet, rescaled: i64, duration: int)
      requires Valid() && p.Media? && ptsOrigin.Some?
      modifies `videoWritten, videoStream
      ensures var was := old(View());
              View() == was.(vout := Submit(was.vout, p, was.l.origin, rescaled, Some(duration)))
    {
      var pts := videoStream.Write(rescaled);
      videoWritten := videoWritten + [Written(p, p.pts - ptsOrigin.value, rescaled, pts, Some(duration))];
    }

    /** Writes the previous video packet, which the new one gives its duration. */
    method HandleVideo(m: Muxer)
      requires Valid() && ptsOrigin.Some? && pc.Work? && IsMedia(videoPktPrevious) && IsMedia(videoPkt)
      modifies `videoPkt, `videoPktPrevious, `pc, `videoWritten, videoStream
      ensures View() == PutVideo(old(View()), m)
    {
      if videoPkt.Some? {
        if videoPktPrevious.Some? {
          var p := videoPktPrevious.value;
          WriteVideo(p, m.vRescaled, videoPkt.value.pts - p.pts);
          if !m.vOk {
            pc := Ended(false);
            return;
          }
        }
        videoPktPrevious, videoPkt := videoPkt, None;
      }
    }

    method HandleAudio(m: Muxer)
      requires Valid() && ptsOrigin.Some? && IsMedia(audioPkt)
      modifies `audioPkt, `pc, `audioWritten, audioStream
      ensures View() == PutAudio(old(View()), m)
    {
      if audioPkt.Some? {
        var p := audioPkt.value;
        var pts := audioStream.Write(m.aRescaled);
        audioWritten := audioWritten + [Written(p, p.pts - ptsOrigin.value, m.aRescaled, pts, None)];
        if !m.aOk {
          pc := Ended(false);
          return;
        }
        audioPkt := None;
      }
      pc := Loop;
    }

    /** One turn without the lock. */
    method Turn(m: Muxer)
      requires Valid() && pc.Work? && IsMedia(videoPktPrevious)
      modifies this, videoStream, audioStream
      ensures Valid() && View() == DoWork(old(View()), m)
    {
      ghost var s0 := Chosen(View());
      assert s0.pc.Work? && s0.l.prev == videoPktPrevious && IsMedia(s0.l.v) && IsMedia(s0.l.a);
      hide Chosen, PutVideo, PutAudio;
      PickOrigin();
      assert View() == s0;
      if ptsOrigin.None? {
        pc := if stopped then Ended(false) else Loop;
        return;
      }
      HandleVideo(m);
      if pc.Ended? {
        return;
      }
      HandleAudio(m);
    }

    /** Writes the last video packet and the trailer. */
    method WriteLast(rescaled: i64, trailerOk: bool)
      requires Valid() && pc.Finish? && IsMedia(videoPktPrevious) && (videoPktPrevious.Some? ==> ptsOrigin.Some?)
      modifies this, videoStream
      ensures Valid() && View() == DoFinish(old(View()), rescaled, trailerOk)
    {
      if videoPktPrevious.Some? {
        WriteVideo(videoPktPrevious.value, rescaled, LAST_DURATION);
        videoPktPrevious := None;
      }
      pc := Ended(trailerOk);
    }
  }

  // ----- The invariant -----

  ghost function MediaOf(q: seq<Packet>): seq<Packet> {
    if q == [] then [] else (if q[0].Media? then [q[0]] else []) + MediaOf(q[1..])
  }

  ghost function Held(p: Option<Packet>): seq<Packet> {
    if p.Some? && p.value.Media? then [p.value] else []
  }

  ghost function Packets(w: seq<Written>): seq<Packet> {
    if w == [] then [] else Packets(w[..|w| - 1]) + [w[|w| - 1].p]
  }

  /** Every media packet accepted was submitted, is the delayed one, is in hand or
      is queued; in this order. */
  ghost predicate Conserved(accepted: seq<Packet>, w: seq<Written>, prev: Option<Packet>, hand: Option<Packet>,
                            q: seq<Packet>)
  {
    MediaOf(accepted) == Packets(w) + Held(prev) + Held(hand) + MediaOf(q)
  }

  ghost function PtsOf(w: seq<Written>): (r: seq<i64>)
    ensures |r| == |w| && forall i :: 0 <= i < |w| ==> r[i] == w[i].pts
  {
    seq(|w|, i requires 0 <= i < |w| => w[i].pts)
  }

  ghost function RescaledOf(w: seq<Written>): (r: seq<i64>)
    ensures |r| == |w| && forall i :: 0 <= i < |w| ==> r[i] == w[i].rescaled
  {
    seq(|w|, i requires 0 <= i < |w| => w[i].rescaled)
  }

  /** The timestamps written are the repaired ones, and the rescaled ones were
      computed relative to the origin. */
  ghost predicate OutInv(out: Out, origin: int) {
    var w := out.written;
    && PtsOf(w) == FixAll(NOPTS, RescaledOf(w))
    && out.last == (if w == [] then NOPTS else w[|w| - 1].pts)
    && (forall i :: 0 <= i < |w| ==> w[i].p.Media? && w[i].relative == w[i].p.pts - origin)
  }

  ghost predicate LastsUntilNext(w: seq<Written>, i: nat)
    requires i < |w| - 1
  {
    w[i].p.Media? && w[i + 1].p.Media? && w[i].duration == Some(w[i + 1].p.pts - w[i].p.pts)
  }

  /** The duration of a video packet is the distance to the next one. */
  ghost predicate DurationInv(w: seq<Written>, next: Option<Packet>) {
    && (forall i :: 0 <= i < |w| - 1 ==> LastsUntilNext(w, i))
    && (w != [] && next.Some? ==>
          var e := w[|w| - 1];
          e.p.Media? && next.value.Media? && e.duration == Some(next.value.pts - e.p.pts))
  }

  ghost predicate VideoFlow(accepted: seq<Packet>, w: seq<Written>, prev: Option<Packet>, hand: Option<Packet>,
                            q: seq<Packet>)
  {
    && Conserved(accepted, w, prev, hand, q)
    && IsMedia(prev)
    && DurationInv(w, prev)
    && (w != [] ==> prev.Some?)
  }

  /** A stream that is not enabled has no packets, and a config packet is only
      expected from an open stream. */
  ghost predicate FlagInv(enabled: bool, expects: bool, hand: Option<Packet>, accepted: seq<Packet>, q: seq<Packet>) {
    && (expects ==> enabled)
    && (!enabled ==> hand.None? && accepted == [] && q == [])
  }

  /** The origin is the first timestamp of the streams it was chosen from. */
  ghost predicate OriginInv(video: bool, audio: bool, rule: Rule, origin: int, v: seq<Packet>, a: seq<Packet>) {
    && (rule.OnlyVideo? ==> !audio)
    && (rule.OnlyAudio? ==> !video)
    && (rule.OnlyVideo? || rule.Both? || rule.StoppedVideo? ==> v != [] && v[0].Media?)
    && (rule.OnlyAudio? || rule.Both? ==> a != [] && a[0].Media?)
    && (rule.OnlyVideo? || rule.StoppedVideo? ==> origin == v[0].pts)
    && (rule.OnlyAudio? ==> origin == a[0].pts)
    && (rule.Both? ==> origin == if v[0].pts < a[0].pts then v[0].pts else a[0].pts)
  }

  /** Nothing is written before the origin is chosen. */
  ghost predicate UnsetInv(l: Local, v: Out, a: Out) {
    l.rule.Unset? ==> l.prev.None? && v.written == [] && a.written == []
  }

  ghost function HandV(s: State): Option<Packet> {
    if s.pc.WriteHeader? then s.pc.v else s.l.v
  }

  ghost function HandA(s: State): Option<Packet> {
    if s.pc.WriteHeader? then s.pc.a else s.l.a
  }

  predicate Live(pc: Pc) {
    !pc.Ended? && !pc.Crashed?
  }

  ghost predicate PcInv(sh: Shared, pc: Pc, l: Local) {
    && (pc.WaitHeader? || pc.WriteHeader? ==> l.v.None? && l.a.None? && l.rule.Unset?)
    && (pc.Work? ==> l.v.Some? || l.a.Some?)
    && (pc.Loop? ==> IsMedia(l.v) && IsMedia(l.a))
    && (pc.Finish? ==> sh.stopped && sh.vq == [] && sh.aq == [] && l.v.None? && l.a.None?)
  }

  ghost predicate LiveInv(s: State) {
    && VideoFlow(s.vIn, s.vout.written, s.l.prev, HandV(s), s.sh.vq)
    && Conserved(s.aIn, s.aout.written, None, HandA(s), s.sh.aq)
    && PcInv(s.sh, s.pc, s.l)
  }

  /** After a successful end everything accepted was submitted. */
  ghost predicate Complete(s: State) {
    && s.sh.stopped && s.sh.vq == [] && s.sh.aq == []
    && MediaOf(s.vIn) == Packets(s.vout.written)
    && MediaOf(s.aIn) == Packets(s.aout.written)
    && DurationInv(s.vout.written, None)
    && (s.vout.written != [] ==> s.vout.written[|s.vout.written| - 1].duration == Some(LAST_DURATION))
  }

  /** What was submitted is the beginning of what was accepted. */
  ghost predicate Submitted(s: State) {
    && Packets(s.vout.written) <= MediaOf(s.vIn)
    && Packets(s.aout.written) <= MediaOf(s.aIn)
  }

  ghost predicate Inv(s: State) {
    && !s.pc.Crashed?
    && OutInv(s.vout, s.l.origin) && OutInv(s.aout, s.l.origin)
    && OriginInv(s.sh.video, s.sh.audio, s.l.rule, s.l.origin, MediaOf(s.vIn), MediaOf(s.aIn))
    && UnsetInv(s.l, s.vout, s.aout)
    && FlagInv(s.sh.video, s.sh.videoConfig, HandV(s), s.vIn, s.sh.vq)
    && FlagInv(s.sh.audio && s.sh.audioInit, s.sh.audioConfig, HandA(s), s.aIn, s.sh.aq)
    && (Live(s.pc) ==> LiveInv(s))
    && (s.pc == Ended(true) ==> Complete(s))
    && (s.pc == Ended(false) ==> Submitted(s))
  }

  lemma {:induction false} MediaOfConcat(x: seq<Packet>, y: seq<Packet>)
    ensures MediaOf(x + y) == MediaOf(x) + MediaOf(y)
  {
    if x == [] {
      assert x + y == y;
    } else {
      var h := if x[0].Media? then [x[0]] else [];
      calc {
        MediaOf(x + y);
        { assert (x + y)[0] == x[0] && (x + y)[1..] == x[1..] + y; }
        h + MediaOf(x[1..] + y);
        { MediaOfConcat(x[1..], y); }
        h + (MediaOf(x[1..]) + MediaOf(y));
        MediaOf(x) + MediaOf(y);
      }
    }
  }

  lemma MediaOfOne(p: Packet)
    ensures MediaOf([p]) == Held(Some(p))
  {
    assert [p][1..] == [];
  }

  /** A packet accepted. */
  lemma AcceptGrows(accepted: seq<Packet>, p: Packet)
    ensures MediaOf(accepted + [p]) == MediaOf(accepted) + Held(Some(p))
  {
    MediaOfConcat(accepted, [p]);
    MediaOfOne(p);
  }

  /** A packet accepted and queued. */
  lemma PushConserves(accepted: seq<Packet>, w: seq<Written>, prev: Option<Packet>, hand: Option<Packet>,
                      q: seq<Packet>, p: Packet)
    requires Conserved(accepted, w, prev, hand, q)
    ensures Conserved(accepted + [p], w, prev, hand, q + [p])
  {
    AcceptGrows(accepted, p);
    AcceptGrows(q, p);
  }

  lemma FirstMedia(q: seq<Packet>)
    requires q != []
    ensures MediaOf(q) == Held(Some(q[0])) + MediaOf(q[1..])
  {
  }

  /** A packet taken from a queue into an empty hand. */
  lemma TakeConserves(accepted: seq<Packet>, w: seq<Written>, prev: Option<Packet>, q: seq<Packet>)
    requires Conserved(accepted, w, prev, None, q)
    ensures Conserved(accepted, w, prev, Head(q), Tail(q))
  {
    if q != [] {
      hide MediaOf, Packets;
      var done := Packets(w) + Held(prev);
      FirstMedia(q);
      assert done + [] + MediaOf(q) == done + Held(Some(q[0])) + MediaOf(q[1..]);
    }
  }

  /** The packet in hand becomes the delayed packet. */
  lemma DelayConserves(accepted: seq<Packet>, w: seq<Written>, hand: Option<Packet>, q: seq<Packet>)
    requires Conserved(accepted, w, None, hand, q)
    ensures Conserved(accepted, w, hand, None, q)
  {
    hide Packets, MediaOf;
    assert Packets(w) + [] + Held(hand) == Packets(w) + Held(hand) + [];
  }

  /** The delayed packet is submitted and the packet in hand takes its place. */
  lemma SubmitConserves(accepted: seq<Packet>, w: seq<Written>, e: Written, hand: Option<Packet>, q: seq<Packet>)
    requires Conserved(accepted, w, Some(e.p), hand, q) && e.p.Media?
    ensures Conserved(accepted, w + [e], hand, None, q)
  {
    hide Packets, MediaOf;
    PacketsAppend(w, e);
    var done := Packets(w) + [e.p] + Held(hand);
    assert done == done + Held(None);
  }

  lemma PacketsAppend(w: seq<Written>, e: Written)
    ensures Packets(w + [e]) == Packets(w) + [e.p]
  {
    assert (w + [e])[..|w|] == w;
  }

  lemma SubmitKeepsOut(out: Out, p: Packet, origin: int, rescaled: i64, duration: Option<int>)
    requires OutInv(out, origin) && p.Media?
    ensures OutInv(Submit(out, p, origin, rescaled, duration), origin)
  {
    hide FixAll, FixPts;
    var w, w' := out.written, Submit(out, p, origin, rescaled, duration).written;
    FixAllAppend(NOPTS, RescaledOf(w), rescaled);
    assert RescaledOf(w') == RescaledOf(w) + [rescaled];
    assert PtsOf(w') == PtsOf(w) + [FixPts(out.last, rescaled)];
  }

  lemma ConservedPrefix(accepted: seq<Packet>, w: seq<Written>, prev: Option<Packet>, hand: Option<Packet>, q: seq<Packet>)
    requires Conserved(accepted, w, prev, hand, q)
    ensures Packets(w) <= MediaOf(accepted)
  {
  }

  // ----- Every step keeps the invariant -----

  lemma VideoPushKeepsInv(s: State, p: Packet)
    requires Inv(s) && SinkEnabled(s.sh, VideoPush(p)) && !s.sh.stopped
    ensures Inv(Exec(s, SinkAction(VideoPush(p))))
  {
    hide Conserved, OutInv, DurationInv, MediaOf;
    var t := s.(vIn := s.vIn + [p], sh := s.sh.(vq := s.sh.vq + [p]));
    assert Exec(s, SinkAction(VideoPush(p))) == t;
    AcceptGrows(s.vIn, p);
    if Live(s.pc) {
      PushConserves(s.vIn, s.vout.written, s.l.prev, HandV(s), s.sh.vq, p);
    }
  }

  lemma AudioPushKeepsInv(s: State, p: Packet)
    requires Inv(s) && SinkEnabled(s.sh, AudioPush(p)) && !s.sh.stopped
    ensures Inv(Exec(s, SinkAction(AudioPush(p))))
  {
    hide Conserved, OutInv, DurationInv, MediaOf;
    var t := s.(aIn := s.aIn + [p], sh := s.sh.(aq := s.sh.aq + [p]));
    assert Exec(s, SinkAction(AudioPush(p))) == t;
    AcceptGrows(s.aIn, p);
    if Live(s.pc) {
      PushConserves(s.aIn, s.aout.written, None, HandA(s), s.sh.aq, p);
    }
  }

  /** Opening, disabling and stopping touch flags only. */
  lemma OtherSinkKeepsInv(s: State, k: Sink)
    requires Inv(s) && SinkEnabled(s.sh, k) && (s.sh.stopped || (!k.VideoPush? && !k.AudioPush?))
    ensures Inv(Exec(s, SinkAction(k)))
  {
    hide Conserved, OutInv, DurationInv, MediaOf;
    var t := s.(sh := SinkStep(s.sh, k));
    assert Exec(s, SinkAction(k)) == t;
    FlagsKeepInv(s, t);
  }

  /** A change of flags that starts no packets and ends none. */
  lemma FlagsKeepInv(s: State, t: State)
    requires Inv(s) && t == s.(sh := t.sh)
    requires t.sh.vq == s.sh.vq && t.sh.aq == s.sh.aq && t.sh.video == s.sh.video
    requires s.sh.stopped ==> t.sh.stopped
    requires t.sh.audio ==> s.sh.audio
    requires t.sh.videoConfig ==> t.sh.video
    requires t.sh.audioConfig ==> t.sh.audio && t.sh.audioInit
    requires s.sh.audio && s.sh.audioInit ==> t.sh.audio && t.sh.audioInit
    ensures Inv(t)
  {
    hide Conserved, OutInv, DurationInv, MediaOf;
    assert HandV(t) == HandV(s) && HandA(t) == HandA(s);
  }

  /** The config packet, if any, is taken from its queue. */
  lemma ConfigConserves(accepted: seq<Packet>, w: seq<Written>, prev: Option<Packet>, q: seq<Packet>, expects: bool)
    requires Conserved(accepted, w, prev, None, q)
    ensures var p := if expects then Head(q) else None; Conserved(accepted, w, prev, p, After(q, p))
  {
    TakeConserves(accepted, w, prev, q);
  }

  lemma HeaderKeepsInv(s: State)
    requires Inv(s) && Enabled(s, HeaderTaken)
    ensures Inv(TakeHeader(s))
  {
    hide Conserved, OutInv, DurationInv, MediaOf, OriginInv, TakeHeader, Packets, HeaderReady;
    ConfigConserves(s.vIn, s.vout.written, s.l.prev, s.sh.vq, s.sh.videoConfig);
    ConfigConserves(s.aIn, s.aout.written, None, s.sh.aq, s.sh.audioConfig);
    HeaderIsTaken(s);
    NoneSubmitted(s);
  }

  lemma NoneSubmitted(s: State)
    requires s.vout.written == [] && s.aout.written == []
    ensures Submitted(s)
  {
  }

  lemma HeaderWrittenKeepsInv(s: State, ok: bool)
    requires Inv(s) && s.pc.WriteHeader?
    ensures Inv(PutHeader(s, ok))
  {
    hide OutInv, DurationInv, MediaOf, OriginInv;
    var t := PutHeader(s, ok);
    assert t == s.(pc := t.pc);
    if Live(t.pc) {
      assert Held(HandV(s)) == Held(HandV(t)) && Held(HandA(s)) == Held(HandA(t));
      assert VideoFlow(t.vIn, t.vout.written, t.l.prev, HandV(t), t.sh.vq);
      assert Conserved(t.aIn, t.aout.written, None, HandA(t), t.sh.aq);
    }
  }

  /** Filling an empty hand from its queue. */
  lemma FillConserves(accepted: seq<Packet>, w: seq<Written>, prev: Option<Packet>, hand: Option<Packet>, q: seq<Packet>)
    requires Conserved(accepted, w, prev, hand, q)
    ensures Conserved(accepted, w, prev, if hand.None? then Head(q) else hand, if hand.None? then Tail(q) else q)
  {
    if hand.None? {
      TakeConserves(accepted, w, prev, q);
    }
  }

  /** The assertions of the critical section hold: it always yields a packet, or
      the recording is over. */
  lemma TakeOutcome(s: State)
    requires s.pc.Loop? && LoopReady(s)
    requires FlagInv(s.sh.video, s.sh.videoConfig, s.l.v, s.vIn, s.sh.vq)
    requires FlagInv(s.sh.audio && s.sh.audioInit, s.sh.audioConfig, s.l.a, s.aIn, s.sh.aq)
    ensures var t := TakePackets(s);
            && (t.pc.Work? || t.pc.Finish?) && PcInv(t.sh, t.pc, t.l)
            && t == s.(pc := t.pc, sh := t.sh, l := t.l)
            && t.sh == s.sh.(vq := if s.l.v.None? then Tail(s.sh.vq) else s.sh.vq,
                             aq := if s.l.a.None? then Tail(s.sh.aq) else s.sh.aq)
            && t.l == s.l.(v := if s.l.v.None? then Head(s.sh.vq) else s.l.v,
                           a := if s.l.a.None? then Head(s.sh.aq) else s.l.a)
  {
    hide TakePackets;
    NeverCrashes(s);
    TakenIsFilled(s);
  }

  lemma NeverCrashes(s: State)
    requires s.pc.Loop? && LoopReady(s)
    requires FlagInv(s.sh.video, s.sh.videoConfig, s.l.v, s.vIn, s.sh.vq)
    requires FlagInv(s.sh.audio && s.sh.audioInit, s.sh.audioConfig, s.l.a, s.aIn, s.sh.aq)
    ensures !TakePackets(s).pc.Crashed?
  {
  }

  lemma TakeKeepsInv(s: State)
    requires Inv(s) && s.pc.Loop? && LoopReady(s)
    ensures Inv(TakePackets(s))
  {
    hide Conserved, OutInv, DurationInv, MediaOf, PcInv, TakePackets;
    FillConserves(s.vIn, s.vout.written, s.l.prev, s.l.v, s.sh.vq);
    FillConserves(s.aIn, s.aout.written, None, s.l.a, s.sh.aq);
    TakeOutcome(s);
  }

  /** Between the parts of a turn. */
  ghost predicate TurnInv(s: State) {
    && s.pc.Work?
    && OutInv(s.vout, s.l.origin) && OutInv(s.aout, s.l.origin)
    && OriginInv(s.sh.video, s.sh.audio, s.l.rule, s.l.origin, MediaOf(s.vIn), MediaOf(s.aIn))
    && FlagInv(s.sh.video, s.sh.videoConfig, s.l.v, s.vIn, s.sh.vq)
    && FlagInv(s.sh.audio && s.sh.audioInit, s.sh.audioConfig, s.l.a, s.aIn, s.sh.aq)
    && VideoFlow(s.vIn, s.vout.written, s.l.prev, s.l.v, s.sh.vq)
    && Conserved(s.aIn, s.aout.written, None, s.l.a, s.sh.aq)
    && UnsetInv(s.l, s.vout, s.aout)
    && IsMedia(s.l.v) && IsMedia(s.l.a)
  }

  /** Before anything is written, the packet in hand is the first one accepted. */
  lemma FirstInHand(accepted: seq<Packet>, p: Packet, q: seq<Packet>)
    requires Conserved(accepted, [], None, Some(p), q) && p.Media?
    ensures MediaOf(accepted) != [] && MediaOf(accepted)[0] == p
  {
  }

  lemma ChosenKeepsOrigin(s: State)
    requires Inv(s) && s.pc.Work? && s.l.rule.Unset?
    ensures var t := Chosen(s); OriginInv(t.sh.video, t.sh.audio, t.l.rule, t.l.origin, MediaOf(t.vIn), MediaOf(t.aIn))
  {
    hide MediaOf, OutInv, DurationInv, Conserved;
    var t := Chosen(s);
    if t.l.v.Some? {
      FirstInHand(s.vIn, t.l.v.value, s.sh.vq);
    }
    if t.l.a.Some? {
      FirstInHand(s.aIn, t.l.a.value, s.sh.aq);
    }
  }

  lemma DropConserves(accepted: seq<Packet>, w: seq<Written>, prev: Option<Packet>, hand: Option<Packet>, q: seq<Packet>)
    requires Conserved(accepted, w, prev, hand, q)
    ensures Conserved(accepted, w, prev, DropConfig(hand), q)
  {
    assert Held(DropConfig(hand)) == Held(hand);
  }

  /** Before anything is written, any origin will do. */
  lemma NothingWritten(out: Out, before: int, after: int)
    requires OutInv(out, before) && out.written == []
    ensures OutInv(out, after)
  {
  }

  lemma ChosenKeepsTurn(s: State)
    requires Inv(s) && s.pc.Work?
    ensures TurnInv(Chosen(s))
  {
    hide MediaOf, DurationInv, Conserved, OutInv, OriginInv, ChooseOrigin;
    DropConserves(s.vIn, s.vout.written, s.l.prev, s.l.v, s.sh.vq);
    DropConserves(s.aIn, s.aout.written, None, s.l.a, s.sh.aq);
    if s.l.rule.Unset? {
      ChosenKeepsOrigin(s);
      NothingWritten(s.vout, s.l.origin, Chosen(s).l.origin);
      NothingWritten(s.aout, s.l.origin, Chosen(s).l.origin);
    }
  }

  /** The delayed packet is submitted and the packet in hand takes its place. */
  lemma VideoKeepsTurn(s: State, m: Muxer)
    requires TurnInv(s) && !s.l.rule.Unset?
    ensures var t := PutVideo(s, m);
            && (t.pc.Work? ==> TurnInv(t) && t.l.v.None?)
            && (t.pc.Ended? ==> Inv(t))
            && (t.pc.Work? || t.pc == Ended(false))
            && t.l == s.l.(prev := t.l.prev, v := t.l.v)
  {
    hide Conserved, DurationInv, MediaOf, OutInv, OriginInv, Packets, FixPts, Submit;
    if s.l.v.Some? {
      if s.l.prev.Some? {
        var p := s.l.prev.value;
        VideoSubmitted(s, p, m.vRescaled);
        ConservedPrefix(s.aIn, s.aout.written, None, s.l.a, s.sh.aq);
      } else {
        NoDuration(s.l.v);
        DelayConserves(s.vIn, s.vout.written, s.l.v, s.sh.vq);
      }
    }
  }

  lemma VideoSubmitted(s: State, p: Packet, rescaled: i64)
    requires TurnInv(s) && s.l.prev == Some(p) && s.l.v.Some?
    ensures var out := Submit(s.vout, p, s.l.origin, rescaled, Some(s.l.v.value.pts - p.pts));
            && OutInv(out, s.l.origin)
            && VideoFlow(s.vIn, out.written, s.l.v, None, s.sh.vq)
            && Packets(out.written) <= MediaOf(s.vIn)
  {
    hide Conserved, DurationInv, MediaOf, OutInv, OriginInv, Packets, FixPts;
    var duration := Some(s.l.v.value.pts - p.pts);
    var e := Written(p, p.pts - s.l.origin, rescaled, FixPts(s.vout.last, rescaled), duration);
    var w := s.vout.written;
    SubmitConserves(s.vIn, w, e, s.l.v, s.sh.vq);
    SubmitKeepsOut(s.vout, p, s.l.origin, rescaled, duration);
    DurationGrows(w, p, e, s.l.v);
    ConservedPrefix(s.vIn, w + [e], s.l.v, None, s.sh.vq);
  }

  lemma NoDuration(next: Option<Packet>)
    ensures DurationInv([], next)
  {
  }

  /** The delayed packet gets its duration from the packet after it. */
  lemma DurationGrows(w: seq<Written>, p: Packet, e: Written, next: Option<Packet>)
    requires DurationInv(w, Some(p)) && p.Media? && e.p == p
    requires next.Some? ==> next.value.Media? && e.duration == Some(next.value.pts - p.pts)
    ensures DurationInv(w + [e], next)
  {
    forall i | 0 <= i < |w + [e]| - 1 ensures LastsUntilNext(w + [e], i) {
      if i < |w| - 1 {
        assert LastsUntilNext(w, i);
      }
    }
  }

  lemma AudioKeepsInv(s: State, m: Muxer)
    requires TurnInv(s) && !s.l.rule.Unset? && s.l.v.None?
    ensures Inv(PutAudio(s, m))
  {
    hide Conserved, DurationInv, MediaOf, OutInv, OriginInv, Packets, FixPts;
    if s.l.a.Some? {
      var p := s.l.a.value;
      var e := Written(p, p.pts - s.l.origin, m.aRescaled, FixPts(s.aout.last, m.aRescaled), None);
      DelayConserves(s.aIn, s.aout.written, s.l.a, s.sh.aq);
      SubmitConserves(s.aIn, s.aout.written, e, None, s.sh.aq);
      SubmitKeepsOut(s.aout, p, s.l.origin, m.aRescaled, None);
      ConservedPrefix(s.vIn, s.vout.written, s.l.prev, None, s.sh.vq);
      ConservedPrefix(s.aIn, s.aout.written + [e], None, None, s.sh.aq);
    }
  }

  lemma WorkKeepsInv(s: State, m: Muxer)
    requires Inv(s) && Enabled(s, Worked(m))
    ensures Inv(DoWork(s, m))
  {
    hide Conserved, DurationInv, MediaOf, OutInv, OriginInv, Chosen, PutVideo, PutAudio;
    var s0 := Chosen(s);
    ChosenKeepsTurn(s);
    if !s0.l.rule.Unset? {
      VideoKeepsTurn(s0, m);
      var s1 := PutVideo(s0, m);
      if s1.pc.Work? {
        AudioKeepsInv(s1, m);
      }
    }
  }

  lemma AllSubmitted(accepted: seq<Packet>, w: seq<Written>)
    requires Conserved(accepted, w, None, None, [])
    ensures MediaOf(accepted) == Packets(w)
  {
  }

  lemma FinishKeepsInv(s: State, rescaled: i64, ok: bool)
    requires Inv(s) && Enabled(s, Finished(rescaled, ok))
    ensures Inv(DoFinish(s, rescaled, ok))
  {
    hide Conserved, DurationInv, MediaOf, OutInv, OriginInv, Packets, FixPts;
    NoDuration(None);
    AllSubmitted(s.aIn, s.aout.written);
    if s.l.prev.Some? {
      var p := s.l.prev.value;
      var e := Written(p, p.pts - s.l.origin, rescaled, FixPts(s.vout.last, rescaled), Some(LAST_DURATION));
      SubmitConserves(s.vIn, s.vout.written, e, None, []);
      SubmitKeepsOut(s.vout, p, s.l.origin, rescaled, e.duration);
      DurationGrows(s.vout.written, p, e, None);
      AllSubmitted(s.vIn, s.vout.written + [e]);
    } else {
      AllSubmitted(s.vIn, s.vout.written);
    }
  }

  lemma ExecKeepsInv(s: State, a: Action)
    requires Inv(s) && Enabled(s, a)
    ensures Inv(Exec(s, a))
  {
    match a
    case SinkAction(k) =>
      if s.sh.stopped || (!k.VideoPush? && !k.AudioPush?) {
        OtherSinkKeepsInv(s, k);
      } else if k.VideoPush? {
        VideoPushKeepsInv(s, k.p);
      } else {
        AudioPushKeepsInv(s, k.p);
      }
    case HeaderTaken => HeaderKeepsInv(s);
    case HeaderWritten(ok) => HeaderWrittenKeepsInv(s, ok);
    case PacketsTaken => TakeKeepsInv(s);
    case Worked(m) => WorkKeepsInv(s, m);
    case Finished(r, ok) => FinishKeepsInv(s, r, ok);
  }

  lemma {:induction false} RunKeepsInv(s: State, actions: seq<Action>, t: State)
    requires Inv(s) && Run(s, actions, t)
    ensures Inv(t)
    decreases |actions|
  {
    hide Inv;
    if actions != [] {
      ExecKeepsInv(s, actions[0]);
      RunKeepsInv(Exec(s, actions[0]), actions[1..], t);
    }
  }

  // ----- What holds in every reachable state -----

  lemma StartInv(video: bool, audio: bool)
    ensures Inv(Start(video, audio))
  {
  }

  /** Main theorem: no internal assertion fails; and a run that ends without error
      submitted every media packet that was ever accepted exactly once, in arrival
      order per stream, left nothing queued, and gave every video packet the
      distance to the next one as its duration, and the last one 100 ms. */
  lemma RecordsEverything(video: bool, audio: bool, actions: seq<Action>, t: State)
    requires Run(Start(video, audio), actions, t)
    ensures !t.pc.Crashed?
    ensures t.pc == Ended(true) ==>
              && Packets(t.vout.written) == MediaOf(t.vIn)
              && Packets(t.aout.written) == MediaOf(t.aIn)
              && t.sh.vq == [] && t.sh.aq == []
              && DurationInv(t.vout.written, None)
              && (t.vout.written != [] ==> t.vout.written[|t.vout.written| - 1].duration == Some(100000))
  {
    StartInv(video, audio);
    RunKeepsInv(Start(video, audio), actions, t);
  }

  /** In every run, the timestamps written to each stream increase strictly exactly
      when the rescaled ones are repairable. */
  lemma WrittenIncrease(video: bool, audio: bool, actions: seq<Action>, t: State)
    requires Run(Start(video, audio), actions, t)
    ensures Increasing(PtsOf(t.vout.written)) <==> Repairable(RescaledOf(t.vout.written))
    ensures Increasing(PtsOf(t.aout.written)) <==> Repairable(RescaledOf(t.aout.written))
  {
    hide Run, FixAll;
    StartInv(video, audio);
    RunKeepsInv(Start(video, audio), actions, t);
    TimestampsIncrease(RescaledOf(t.vout.written));
    TimestampsIncrease(RescaledOf(t.aout.written));
  }

  /** In every run, the timestamps submitted are relative to one origin: the first
      timestamp of the only stream, the earlier one of two, or that of the video when
      the recording was stopped before any audio. */
  lemma OriginExactly(video: bool, audio: bool, actions: seq<Action>, t: State)
    requires Run(Start(video, audio), actions, t)
    ensures var v, a := MediaOf(t.vIn), MediaOf(t.aIn);
            match t.l.rule
            case Unset => t.vout.written == [] && t.aout.written == []
            case OnlyVideo => !t.sh.audio && v != [] && v[0].Media? && t.l.origin == v[0].pts
            case OnlyAudio => !t.sh.video && a != [] && a[0].Media? && t.l.origin == a[0].pts
            case Both => v != [] && a != [] && v[0].Media? && a[0].Media?
                         && t.l.origin <= v[0].pts && t.l.origin <= a[0].pts
                         && (t.l.origin == v[0].pts || t.l.origin == a[0].pts)
            case StoppedVideo => v != [] && v[0].Media? && t.l.origin == v[0].pts
    ensures forall i :: 0 <= i < |t.vout.written| ==>
              t.vout.written[i].p.Media? && t.vout.written[i].relative == t.vout.written[i].p.pts - t.l.origin
    ensures forall i :: 0 <= i < |t.aout.written| ==>
              t.aout.written[i].p.Media? && t.aout.written[i].relative == t.aout.written[i].p.pts - t.l.origin
  {
    hide Run, MediaOf, LiveInv;
    StartInv(video, audio);
    RunKeepsInv(Start(video, audio), actions, t);
  }

  /** The origin is chosen at most once. */
  lemma {:induction false} OriginOnce(s: State, actions: seq<Action>, t: State)
    requires Run(s, actions, t) && !s.l.rule.Unset?
    ensures t.l.rule == s.l.rule && t.l.origin == s.l.origin
    decreases |actions|
  {
    if actions != [] {
      OriginOnce(Exec(s, actions[0]), actions[1..], t);
    }
  }

  ghost predicate NonDecreasing(ps: seq<Packet>) {
    && (forall i :: 0 <= i < |ps| ==> ps[i].Media?)
    && (forall i, j :: 0 <= i < j < |ps| ==> ps[i].pts <= ps[j].pts)
  }

  /** Timestamps that do not decrease never become negative relative to an origin
      chosen from the streams that have packets; when the recording was stopped
      before any audio, this still holds for the video. */
  lemma RelativeNotNegative(video: bool, audio: bool, actions: seq<Action>, t: State)
    requires Run(Start(video, audio), actions, t)
    requires NonDecreasing(MediaOf(t.vIn)) && NonDecreasing(MediaOf(t.aIn))
    ensures forall i :: 0 <= i < |t.vout.written| ==> t.vout.written[i].relative >= 0
    ensures !t.l.rule.StoppedVideo? ==>
              forall i :: 0 <= i < |t.aout.written| ==> t.aout.written[i].relative >= 0
  {
    StartInv(video, audio);
    RunKeepsInv(Start(video, audio), actions, t);
    WrittenArePrefix(t);
    StreamNotNegative(t.vout, t.l.origin, MediaOf(t.vIn));
    if !t.l.rule.StoppedVideo? {
      StreamNotNegative(t.aout, t.l.origin, MediaOf(t.aIn));
    }
  }

  /** Exactly when a complete recording has no negative audio timestamp: unless it
      was stopped before the origin was chosen and its first audio packet is
      earlier than its first video packet. */
  lemma AudioNegativeExactly(video: bool, audio: bool, actions: seq<Action>, t: State)
    requires Run(Start(video, audio), actions, t) && t.pc == Ended(true)
    requires NonDecreasing(MediaOf(t.vIn)) && NonDecreasing(MediaOf(t.aIn))
    ensures var v, a := MediaOf(t.vIn), MediaOf(t.aIn);
            (forall i :: 0 <= i < |t.aout.written| ==> t.aout.written[i].relative >= 0) <==>
            !(t.l.rule.StoppedVideo? && v != [] && a != [] && a[0].pts < v[0].pts)
  {
    hide Run, MediaOf;
    StartInv(video, audio);
    RunKeepsInv(Start(video, audio), actions, t);
    RelativeNotNegative(video, audio, actions, t);
    if t.l.rule.StoppedVideo? {
      PacketsAt(t.aout.written);
      if MediaOf(t.aIn) != [] {
        assert t.aout.written[0].p == MediaOf(t.aIn)[0];
        if MediaOf(t.vIn)[0].pts <= MediaOf(t.aIn)[0].pts {
          StreamNotNegative(t.aout, t.l.origin, MediaOf(t.aIn));
        }
      }
    }
  }

  lemma StreamNotNegative(out: Out, origin: int, ps: seq<Packet>)
    requires OutInv(out, origin) && Packets(out.written) <= ps && NonDecreasing(ps)
    requires out.written != [] ==> ps != [] && origin <= ps[0].pts
    ensures forall i :: 0 <= i < |out.written| ==> out.written[i].relative >= 0
  {
    PacketsAt(out.written);
    forall i | 0 <= i < |out.written| ensures out.written[i].relative >= 0 {
      assert out.written[i].p == ps[i];
    }
  }

  lemma {:induction false} PacketsAt(w: seq<Written>)
    ensures |Packets(w)| == |w|
    ensures forall i :: 0 <= i < |w| ==> Packets(w)[i] == w[i].p
  {
    if w != [] {
      PacketsAt(w[..|w| - 1]);
    }
  }

  /** What was submitted is the beginning of what was accepted. */
  lemma WrittenArePrefix(t: State)
    requires Inv(t)
    ensures Submitted(t)
    ensures t.l.rule.Unset? || t.l.rule.OnlyAudio? ==> t.vout.written == []
    ensures t.l.rule.Unset? || t.l.rule.OnlyVideo? ==> t.aout.written == []
  {
    hide OutInv, DurationInv, Conserved, Packets, MediaOf;
    if Live(t.pc) {
      ConservedPrefix(t.vIn, t.vout.written, t.l.prev, HandV(t), t.sh.vq);
      ConservedPrefix(t.aIn, t.aout.written, None, HandA(t), t.sh.aq);
    }
    NoneAccepted(t.vIn, t.vout.written);
    NoneAccepted(t.aIn, t.aout.written);
  }

  lemma NoneAccepted(accepted: seq<Packet>, w: seq<Written>)
    requires Packets(w) <= MediaOf(accepted)
    ensures accepted == [] ==> w == []
  {
    PacketsAt(w);
  }
}
