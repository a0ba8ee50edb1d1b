/** Stopping the recorder: the thread ends in a bounded number of steps, and the
    packets left at the stop decide whether it ends with an error. */
module RecorderStop {
  import opened Common
  import opened Timestamps
  import opened Recorder

  // ----- Termination -----

  predicate ThreadAction(a: Action) {
    !a.SinkAction?
  }

  ghost function Holding(p: Option<Packet>): nat {
    if p.Some? then 1 else 0
  }

  /** Packets queued and in hand, with the position in the loop. */
  ghost function Measure(s: State): nat {
    2 * (|s.sh.vq| + |s.sh.aq| + Holding(s.l.v) + Holding(s.l.a)) +
    match s.pc
    case WaitHeader => 4
    case WriteHeader(_, _) => 3
    case Loop => 2
    case Work => 1
    case Finish => 1
    case _ => 0
  }

  /** Once stopped, every step of the thread decreases the measure and no step of
      a producer increases it; and the thread is never blocked. */
  lemma StoppedProgress(s: State, a: Action)
    requires Inv(s) && s.sh.stopped && Enabled(s, a)
    ensures Exec(s, a).sh.stopped
    ensures Measure(Exec(s, a)) + (if ThreadAction(a) then 1 else 0) <= Measure(s)
  {
    hide Inv, Measure, SinkStep, TakeHeader, PutHeader, TakePackets, DoWork, DoFinish;
    match a
    case SinkAction(k) => SinkProgress(s, k);
    case HeaderTaken => HeaderProgress(s);
    case PacketsTaken => TakeProgress(s);
    case Worked(m) => WorkProgress(s, m);
    case _ => EndProgress(s, a);
  }

  lemma SinkProgress(s: State, k: Sink)
    requires s.sh.stopped
    ensures var t := Accepted(s, k).(sh := SinkStep(s.sh, k)); t.sh.stopped && Measure(t) == Measure(s)
  {
  }

  lemma HeaderProgress(s: State)
    requires s.sh.stopped && s.pc.WaitHeader?
    ensures var t := TakeHeader(s); t.sh.stopped && Measure(t) < Measure(s)
  {
  }

  lemma EndProgress(s: State, a: Action)
    requires s.sh.stopped && Enabled(s, a) && (a.HeaderWritten? || a.Finished?)
    ensures var t := Exec(s, a); t.sh.stopped && Measure(t) < Measure(s)
  {
  }

  lemma TakeProgress(s: State)
    requires Inv(s) && s.sh.stopped && Enabled(s, PacketsTaken)
    ensures var t := TakePackets(s); t.sh.stopped && Measure(t) < Measure(s)
  {
    hide OutInv, MediaOf, Conserved, DurationInv, OriginInv, TakePackets;
    TakeOutcome(s);
  }

  lemma WorkProgress(s: State, m: Muxer)
    requires Inv(s) && s.sh.stopped && Enabled(s, Worked(m))
    ensures var t := DoWork(s, m); t.sh.stopped && Measure(t) < Measure(s)
  {
    hide OutInv, MediaOf, Conserved, DurationInv, OriginInv, Submit, ChooseOrigin, Packets;
    var s0 := Chosen(s);
    assert s0.sh == s.sh && Holding(s0.l.v) <= Holding(s.l.v) && Holding(s0.l.a) <= Holding(s.l.a);
    if !s0.l.rule.Unset? {
      var s1 := PutVideo(s0, m);
      assert s1.sh == s.sh && s1.l.a == s0.l.a;
    }
  }

  lemma NeverBlocked(s: State)
    requires Inv(s) && s.sh.stopped && Live(s.pc)
    ensures exists a :: ThreadAction(a) && Enabled(s, a)
  {
    var a :=
      if s.pc.WaitHeader? then HeaderTaken
      else if s.pc.WriteHeader? then HeaderWritten(true)
      else if s.pc.Loop? then PacketsTaken
      else if s.pc.Work? then Worked(Muxer(true, 0, true, 0))
      else Finished(0, true);
    assert ThreadAction(a) && Enabled(s, a);
  }

  ghost function ThreadSteps(actions: seq<Action>): nat {
    if actions == [] then 0
    else (if ThreadAction(actions[0]) then 1 else 0) + ThreadSteps(actions[1..])
  }

  /** Main theorem on stopping: after the stop the thread takes at most as many
      more steps as the measure says, whatever the producers do. */
  lemma {:induction false} StopTerminates(s: State, actions: seq<Action>, t: State)
    requires Inv(s) && s.sh.stopped && Run(s, actions, t)
    ensures ThreadSteps(actions) + Measure(t) <= Measure(s)
    decreases |actions|
  {
    hide Inv, Measure;
    if actions != [] {
      ExecKeepsInv(s, actions[0]);
      StoppedProgress(s, actions[0]);
      StopTerminates(Exec(s, actions[0]), actions[1..], t);
    }
  }

  // ----- Success or error -----

  /** The muxer works. */
  predicate MuxerOk(a: Action) {
    match a
    case HeaderWritten(ok) => ok
    case Worked(m) => m.vOk && m.aOk
    case Finished(_, ok) => ok
    case _ => true
  }

  predicate HasMedia(p: Option<Packet>) {
    p.Some? && p.value.Media?
  }

  /** Packets are left, but the first ones cannot give the origin: the first video
      packet is missing or a config packet, and without video so is the first
      audio packet. */
  predicate NoOrigin(video: bool, v: Option<Packet>, a: Option<Packet>) {
    (v.Some? || a.Some?) && !HasMedia(v) && (video || !HasMedia(a))
  }

  /** The packet in hand, or else the first one queued. */
  function First(hand: Option<Packet>, q: seq<Packet>): Option<Packet> {
    if hand.Some? then hand else Head(q)
  }

  /** Whether a stopped recording is bound to end with an error. Before the header:
      no video packet, or a first packet that is not the expected config packet.
      Then, before the origin is chosen: no packet left that can give it. */
  predicate Fails(s: State) {
    match s.pc
    case WaitHeader =>
      var sh := s.sh;
      || (sh.video && sh.vq == [])
      || HeaderFails(if sh.videoConfig then Head(sh.vq) else None, if sh.audioConfig then Head(sh.aq) else None)
      || NoOrigin(sh.video, Head(if sh.videoConfig then Tail(sh.vq) else sh.vq),
                  Head(if sh.audioConfig then Tail(sh.aq) else sh.aq))
    case WriteHeader(v, a) => HeaderFails(v, a) || NoOrigin(s.sh.video, Head(s.sh.vq), Head(s.sh.aq))
    case Loop => s.l.rule.Unset? && NoOrigin(s.sh.video, First(s.l.v, s.sh.vq), First(s.l.a, s.sh.aq))
    case Work => s.l.rule.Unset? && NoOrigin(s.sh.video, s.l.v, s.l.a)
    case Finish => false
    case Ended(ok) => !ok
    case Crashed => true
  }

  predicate HeaderFails(v: Option<Packet>, a: Option<Packet>) {
    HasMedia(v) || HasMedia(a)
  }

  lemma SinkKeepsFate(s: State, k: Sink)
    requires Inv(s) && s.sh.stopped && SinkEnabled(s.sh, k)
    ensures Fails(Exec(s, SinkAction(k))) == Fails(s)
  {
    hide OutInv, OriginInv, UnsetInv, LiveInv, Complete, Submitted;
    var t := Exec(s, SinkAction(k));
    assert t == s.(sh := t.sh) && t.sh.vq == s.sh.vq && t.sh.aq == s.sh.aq && t.sh.video == s.sh.video;
    assert t.sh.videoConfig == s.sh.videoConfig;
    assert t.sh.audioConfig == s.sh.audioConfig || s.sh.aq == [];
  }

  lemma HeaderKeepsFate(s: State)
    requires Inv(s) && s.sh.stopped && Enabled(s, HeaderTaken)
    ensures Fails(TakeHeader(s)) == Fails(s)
  {
    hide OutInv, OriginInv, UnsetInv, LiveInv, Complete, Submitted;
  }

  lemma TakeKeepsFate(s: State)
    requires Inv(s) && s.sh.stopped && Enabled(s, PacketsTaken)
    ensures Fails(TakePackets(s)) == Fails(s)
  {
    hide OutInv, OriginInv, UnsetInv, LiveInv, Complete, Submitted, TakePackets;
    TakeOutcome(s);
  }

  /** Stopped, the packets in hand give the origin unless they cannot. */
  lemma OriginFate(s: State)
    requires s.pc.Work? && s.sh.stopped && s.l.rule.Unset? && PcInv(s.sh, s.pc, s.l)
    requires FlagInv(s.sh.video, s.sh.videoConfig, s.l.v, s.vIn, s.sh.vq)
    requires FlagInv(s.sh.audio && s.sh.audioInit, s.sh.audioConfig, s.l.a, s.aIn, s.sh.aq)
    ensures Chosen(s).l.rule.Unset? <==> NoOrigin(s.sh.video, s.l.v, s.l.a)
  {
  }

  lemma WorkKeepsFate(s: State, m: Muxer)
    requires Inv(s) && s.sh.stopped && Enabled(s, Worked(m)) && m.vOk && m.aOk
    ensures Fails(DoWork(s, m)) == Fails(s)
  {
    hide OutInv, OriginInv, UnsetInv, Complete, Submitted, Conserved, VideoFlow, NoOrigin, ChooseOrigin, Submit;
    var s0 := Chosen(s);
    if s.l.rule.Unset? {
      OriginFate(s);
    }
    if !s0.l.rule.Unset? {
      var s1 := PutVideo(s0, m);
      assert s1.l.rule == s0.l.rule && s1.pc.Work?;
      assert PutAudio(s1, m).pc.Loop? && PutAudio(s1, m).l.rule == s0.l.rule;
    }
  }

  /** No step of a stopped recording changes its fate, as long as the muxer works. */
  lemma StepKeepsFate(s: State, a: Action)
    requires Inv(s) && s.sh.stopped && Enabled(s, a) && MuxerOk(a)
    ensures Fails(Exec(s, a)) == Fails(s)
  {
    hide Inv, Fails, SinkStep, TakeHeader, TakePackets, DoWork;
    match a
    case SinkAction(k) => SinkKeepsFate(s, k);
    case HeaderTaken => HeaderKeepsFate(s);
    case PacketsTaken => TakeKeepsFate(s);
    case Worked(m) => WorkKeepsFate(s, m);
    case _ => EndKeepsFate(s, a);
  }

  lemma EndKeepsFate(s: State, a: Action)
    requires Inv(s) && s.sh.stopped && Enabled(s, a) && MuxerOk(a) && (a.HeaderWritten? || a.Finished?)
    ensures Fails(Exec(s, a)) == Fails(s)
  {
    hide OutInv, OriginInv, UnsetInv, Complete, Submitted, Conserved, VideoFlow;
  }

  lemma {:induction false} RunKeepsFate(s: State, actions: seq<Action>, t: State)
    requires Inv(s) && s.sh.stopped && Run(s, actions, t)
    requires forall i :: 0 <= i < |actions| ==> MuxerOk(actions[i])
    ensures Fails(t) == Fails(s)
    decreases |actions|
  {
    hide Inv, Fails, Exec, MuxerOk;
    if actions != [] {
      ExecKeepsInv(s, actions[0]);
      StepKeepsFate(s, actions[0]);
      StoppedProgress(s, actions[0]);
      RunKeepsFate(Exec(s, actions[0]), actions[1..], t);
    }
  }

  /** Main theorem: with a muxer that works, a recording ends with an error exactly
      when the packets left at the stop say so. */
  lemma ErrorExactly(video: bool, audio: bool, before: seq<Action>, s: State, after: seq<Action>, t: State)
    requires Run(Start(video, audio), before, s) && s.sh.stopped && Run(s, after, t)
    requires forall i :: 0 <= i < |after| ==> MuxerOk(after[i])
    requires t.pc.Ended?
    ensures t.pc == Ended(!Fails(s))
  {
    hide Run, Inv;
    StartInv(video, audio);
    RunKeepsInv(Start(video, audio), before, s);
    RunKeepsFate(s, after, t);
  }

  // ----- When the origin comes from the video alone -----

  /** Only a turn changes the rule, and it chooses the video alone exactly when the
      recording is stopped with both streams enabled and, of the two, only a video
      packet with a timestamp in hand. */
  lemma StoppedVideoWhen(s: State, a: Action)
    requires Inv(s) && Enabled(s, a) && s.l.rule.Unset?
    ensures Exec(s, a).l.rule.StoppedVideo? <==>
            && a.Worked? && s.sh.stopped && s.sh.video && s.sh.audio
            && HasMedia(s.l.v) && !HasMedia(s.l.a)
  {
    hide OutInv, OriginInv, UnsetInv, LiveInv, Complete, Submitted, Submit, Head, Tail;
    if a.Worked? {
      var s0 := Chosen(s);
      assert Exec(s, a).l.rule == s0.l.rule;
    }
  }

  // ----- The flags read without the lock -----

  /** The choice of the origin when each flag is read on its own: `audio` twice, then
      `stopped`. */
  function ChooseByReads(video: bool, audio1: bool, audio2: bool, stopped: bool, v: Option<Packet>, a: Option<Packet>):
      (Rule, int)
    requires IsMedia(v) && IsMedia(a)
  {
    if !audio1 && v.Some? then (OnlyVideo, v.value.pts)
    else if !video && a.Some? then (OnlyAudio, a.value.pts)
    else if video && audio2 && v.Some? && a.Some? then (Both, Min(v.value.pts, a.value.pts))
    else if stopped && v.Some? then (StoppedVideo, v.value.pts)
    else (Unset, 0)
  }

  /** After the header, an enabled stream is initialised unless the recording is
      stopped. */
  ghost predicate InitInv(s: State) {
    !s.pc.WaitHeader? && s.sh.audio && !s.sh.audioInit ==> s.sh.stopped
  }

  lemma ExecKeepsInit(s: State, a: Action)
    requires InitInv(s) && Enabled(s, a)
    ensures InitInv(Exec(s, a))
  {
    hide TakePackets, DoWork, DoFinish, TakeHeader, HeaderReady;
    match a
    case SinkAction(_) =>
    case HeaderTaken => HeaderKeepsFlags(s);
    case HeaderWritten(_) =>
    case PacketsTaken => TakeKeepsFlags(s);
    case Worked(m) => WorkKeepsFlags(s, m);
    case Finished(r, ok) => FinishKeepsFlags(s, r, ok);
  }

  /** The thread does not touch the flags of the streams, accepts no packets and does
      not return to the header. */
  ghost predicate SameFlags(s: State, t: State) {
    && t.sh.stopped == s.sh.stopped && t.sh.audio == s.sh.audio && t.sh.audioInit == s.sh.audioInit
    && t.vIn == s.vIn && t.aIn == s.aIn && !t.pc.WaitHeader?
  }

  lemma HeaderKeepsFlags(s: State)
    ensures SameFlags(s, TakeHeader(s))
    ensures HeaderReady(s.sh) && s.sh.audio && !s.sh.audioInit ==> s.sh.stopped
  {
  }

  lemma TakeKeepsFlags(s: State)
    requires s.pc.Loop?
    ensures SameFlags(s, TakePackets(s))
  {
    FillKeepsFlags(s);
    hide FillV, FillA, FillBoth, Head, Tail;
  }

  lemma FillKeepsFlags(s: State)
    requires s.pc.Loop?
    ensures SameFlags(s, FillBoth(s))
  {
    hide Head, Tail;
  }

  lemma WorkKeepsFlags(s: State, m: Muxer)
    requires IsMedia(s.l.prev) && s.pc.Work?
    ensures SameFlags(s, DoWork(s, m))
  {
    hide Submit, ChooseOrigin;
  }

  lemma FinishKeepsFlags(s: State, rescaled: i64, ok: bool)
    requires IsMedia(s.l.prev)
    ensures SameFlags(s, DoFinish(s, rescaled, ok))
  {
  }

  lemma {:induction false} RunKeepsInit(s: State, actions: seq<Action>, t: State)
    requires InitInv(s) && Run(s, actions, t)
    ensures InitInv(t)
    decreases |actions|
  {
    hide InitInv, Exec;
    if actions != [] {
      ExecKeepsInit(s, actions[0]);
      RunKeepsInit(Exec(s, actions[0]), actions[1..], t);
    }
  }

  /** What the producers may change meanwhile: they stop, or disable an audio stream
      that was never initialised. */
  ghost predicate Meanwhile(s: Shared, t: Shared) {
    && t.video == s.video && (s.stopped ==> t.stopped)
    && (t.audio ==> s.audio) && (s.audioInit ==> t.audioInit && t.audio == s.audio)
  }

  lemma {:induction false} SinkRun(s: State, actions: seq<Action>, t: State)
    requires Run(s, actions, t) && forall i :: 0 <= i < |actions| ==> actions[i].SinkAction?
    ensures Meanwhile(s.sh, t.sh) && t.l == s.l && t.pc == s.pc
    decreases |actions|
  {
    if actions != [] {
      SinkRun(Exec(s, actions[0]), actions[1..], t);
    }
  }

  /** Reading the flags one after the other, while the producers go on, has the
      result of reading them all at the first or at the last of these moments. */
  lemma ReadsAreAtomic(video: bool, audio: bool, before: seq<Action>, s: State,
                       first: seq<Action>, s2: State, second: seq<Action>, s3: State)
    requires Run(Start(video, audio), before, s) && s.pc.Work?
    requires Run(s, first, s2) && forall i :: 0 <= i < |first| ==> first[i].SinkAction?
    requires Run(s2, second, s3) && forall i :: 0 <= i < |second| ==> second[i].SinkAction?
    ensures var v, a := DropConfig(s.l.v), DropConfig(s.l.a);
            var r := ChooseByReads(s.sh.video, s.sh.audio, s2.sh.audio, s3.sh.stopped, v, a);
            r == ChooseOrigin(s.sh, v, a) || r == ChooseOrigin(s3.sh, v, a)
  {
    hide Run, OutInv, OriginInv, UnsetInv, LiveInv, Complete, Submitted;
    StartInv(video, audio);
    RunKeepsInv(Start(video, audio), before, s);
    RunKeepsInit(Start(video, audio), before, s);
    SinkRun(s, first, s2);
    SinkRun(s2, second, s3);
  }

  // ----- Runs that show the exceptions -----

  lemma {:induction false} RunSnoc(s: State, actions: seq<Action>, m: State, a: Action)
    requires Run(s, actions, m) && Enabled(m, a)
    ensures Run(s, actions + [a], Exec(m, a))
    decreases |actions|
  {
    hide Enabled, Exec;
    var more := actions + [a];
    if actions == [] {
      assert more[0] == a && more[1..] == [];
      assert Run(Exec(s, a), [], Exec(s, a));
    } else {
      assert more[0] == actions[0] && more[1..] == actions[1..] + [a];
      RunSnoc(Exec(s, actions[0]), actions[1..], m, a);
    }
  }

  /** Both streams open, with these packets queued. */
  function Opened(vConfig: bool, aConfig: bool, vs: seq<Packet>, as_: seq<Packet>): State {
    State(Shared(true, true, false, true, true, vConfig, aConfig, vs, as_), WaitHeader,
          Local(None, None, None, 0, Unset), Out(NOPTS, []), Out(NOPTS, []), vs, as_)
  }

  lemma {:induction false} Reach(vConfig: bool, aConfig: bool, vs: seq<Packet>, as_: seq<Packet>)
      returns (actions: seq<Action>)
    ensures Run(Start(true, true), actions, Opened(vConfig, aConfig, vs, as_))
    decreases |vs| + |as_|
  {
    hide Run;
    var t := Opened(vConfig, aConfig, vs, as_);
    if as_ != [] {
      var rest, p := as_[..|as_| - 1], as_[|as_| - 1];
      actions := Reach(vConfig, aConfig, vs, rest);
      assert rest + [p] == as_;
      RunSnoc(Start(true, true), actions, Opened(vConfig, aConfig, vs, rest), SinkAction(AudioPush(p)));
      actions := actions + [SinkAction(AudioPush(p))];
    } else if vs != [] {
      var rest, p := vs[..|vs| - 1], vs[|vs| - 1];
      actions := Reach(vConfig, aConfig, rest, as_);
      assert rest + [p] == vs;
      RunSnoc(Start(true, true), actions, Opened(vConfig, aConfig, rest, as_), SinkAction(VideoPush(p)));
      actions := actions + [SinkAction(VideoPush(p))];
    } else {
      var s0 := Start(true, true);
      var s1 := s0.(sh := s0.sh.(videoInit := true, videoConfig := vConfig));
      RunNil(s0);
      RunSnoc(s0, [], s0, SinkAction(VideoOpen(vConfig)));
      RunSnoc(s0, [] + [SinkAction(VideoOpen(vConfig))], s1, SinkAction(AudioOpen(aConfig)));
      actions := [] + [SinkAction(VideoOpen(vConfig))] + [SinkAction(AudioOpen(aConfig))];
    }
  }

  lemma RunNil(t: State)
    ensures Run(t, [], t)
  {
  }

  /** A recording may fail although video packets are left: stopped while the next
      video packet is a further config packet. */
  lemma ErrorWithVideoLeft() returns (actions: seq<Action>, t: State)
    ensures Run(Start(true, true), actions, t) && t.sh.stopped && t.pc.WaitHeader? && Fails(t)
    ensures MediaOf(t.sh.vq) != [] && MediaOf(t.sh.aq) != []
  {
    hide Run;
    var c, v, a := Config(0), Media(100, 0), Media(0, 1);
    actions := Reach(true, false, [c, c, v], [a]);
    var s := Opened(true, false, [c, c, v], [a]);
    RunSnoc(Start(true, true), actions, s, SinkAction(Stop));
    actions, t := actions + [SinkAction(Stop)], s.(sh := s.sh.(stopped := true));
    assert [c, c, v][1..] == [c, v] && [c, v][1..] == [v];
    assert MediaOf([v]) != [] && MediaOf([a]) != [];
  }

  /** A complete recording may have a negative audio timestamp: stopped while the
      hand holds a further audio config packet, it takes its origin from the video
      alone, and the audio packet behind is earlier. */
  lemma StoppedAudioMayBeNegative() returns (actions: seq<Action>, t: State)
    ensures Run(Start(true, true), actions, t) && t.pc == Ended(true) && t.l.rule.StoppedVideo?
    ensures t.vIn == [Media(100, 0)] && t.aIn == [Config(0), Config(0), Media(0, 1)]
    ensures |t.aout.written| == 1 && t.aout.written[0].relative == -100
  {
    hide Run, Exec;
    var v, c, a := Media(100, 0), Config(0), Media(0, 1);
    actions := Reach(false, true, [v], [c, c, a]);
    var s := Opened(false, true, [v], [c, c, a]);
    actions, t := StopAndHeader(actions, s);
    assert [c, c, a][1..] == [c, a];
    actions, t := TwoTurns(actions, t, v, c, a);
    actions, t := LastPacket(actions, t);
  }

  lemma StopAndHeader(before: seq<Action>, s: State) returns (actions: seq<Action>, t: State)
    requires Run(Start(true, true), before, s)
    requires s.pc.WaitHeader? && s.sh.vq != [] && !s.sh.videoConfig && s.sh.audio && s.sh.audioConfig
    requires s.sh.aq != [] && s.sh.aq[0].Config?
    ensures Run(Start(true, true), actions, t)
    ensures t == s.(pc := Loop, sh := s.sh.(stopped := true, aq := s.sh.aq[1..]))
  {
    hide Run;
    RunSnoc(Start(true, true), before, s, SinkAction(Stop));
    var s1 := s.(sh := s.sh.(stopped := true));
    actions := before + [SinkAction(Stop)];
    RunSnoc(Start(true, true), actions, s1, HeaderTaken);
    var s2 := s1.(pc := WriteHeader(None, Some(s.sh.aq[0])), sh := s1.sh.(aq := s.sh.aq[1..]));
    actions := actions + [HeaderTaken];
    RunSnoc(Start(true, true), actions, s2, HeaderWritten(true));
    actions, t := actions + [HeaderWritten(true)], s2.(pc := Loop);
  }

  /** Two turns after the stop: the video alone, then the audio behind a config
      packet. */
  lemma TwoTurns(before: seq<Action>, s: State, v: Packet, c: Packet, a: Packet)
      returns (actions: seq<Action>, t: State)
    requires Run(Start(true, true), before, s)
    requires v.Media? && c.Config? && a.Media?
    requires s.pc.Loop? && s.sh.video && s.sh.audio && s.sh.stopped && s.sh.vq == [v] && s.sh.aq == [c, a]
    requires s.l == Local(None, None, None, 0, Unset) && s.aout == Out(NOPTS, [])
    ensures Run(Start(true, true), actions, t)
    ensures t == s.(sh := s.sh.(vq := [], aq := []), l := Local(None, None, Some(v), v.pts, StoppedVideo),
                    aout := Out(0, [Written(a, a.pts - v.pts, 0, 0, None)]))
  {
    hide Run, Exec, Enabled;
    var m := Muxer(true, 0, true, 0);
    var s1, s2 := FirstTurn(s, v, c, a);
    RunSnoc(Start(true, true), before, s, PacketsTaken);
    actions := before + [PacketsTaken];
    RunSnoc(Start(true, true), actions, s1, Worked(m));
    actions := actions + [Worked(m)];
    var s3;
    s3, t := SecondTurn(s2, a);
    RunSnoc(Start(true, true), actions, s2, PacketsTaken);
    actions := actions + [PacketsTaken];
    RunSnoc(Start(true, true), actions, s3, Worked(m));
    actions := actions + [Worked(m)];
  }

  /** Video in one hand, a config packet in the other: the video gives the origin. */
  lemma FirstTurn(s: State, v: Packet, c: Packet, a: Packet) returns (s1: State, s2: State)
    requires v.Media? && c.Config? && s.pc.Loop? && s.sh.video && s.sh.audio && s.sh.stopped
    requires s.sh.vq == [v] && s.sh.aq == [c, a] && s.l == Local(None, None, None, 0, Unset)
    ensures var m := Muxer(true, 0, true, 0);
            && Enabled(s, PacketsTaken) && Exec(s, PacketsTaken) == s1
            && Enabled(s1, Worked(m)) && Exec(s1, Worked(m)) == s2
    ensures s2 == s.(sh := s.sh.(vq := [], aq := [a]), l := Local(None, None, Some(v), v.pts, StoppedVideo))
  {
    assert [c, a][1..] == [a] && [v][1..] == [];
    s1 := s.(pc := Work, sh := s.sh.(vq := [], aq := [a]), l := s.l.(v := Some(v), a := Some(c)));
    assert Exec(s, PacketsTaken) == s1;
    hide TakePackets;
    s2 := s.(sh := s.sh.(vq := [], aq := [a]), l := Local(None, None, Some(v), v.pts, StoppedVideo));
  }

  /** Audio alone. */
  lemma SecondTurn(s: State, a: Packet) returns (s1: State, t: State)
    requires a.Media? && s.pc.Loop? && s.sh.video && s.sh.audio && s.sh.stopped && !s.l.rule.Unset?
    requires s.sh.vq == [] && s.sh.aq == [a] && s.l.v.None? && s.l.a.None? && HasMedia(s.l.prev)
    requires s.aout == Out(NOPTS, [])
    ensures var m := Muxer(true, 0, true, 0);
            && Enabled(s, PacketsTaken) && Exec(s, PacketsTaken) == s1
            && Enabled(s1, Worked(m)) && Exec(s1, Worked(m)) == t
    ensures t == s.(sh := s.sh.(aq := []), aout := Out(0, [Written(a, a.pts - s.l.origin, 0, 0, None)]))
  {
    assert [a][1..] == [];
    s1 := s.(pc := Work, sh := s.sh.(aq := []), l := s.l.(a := Some(a)));
    assert Exec(s, PacketsTaken) == s1;
    hide TakePackets;
    var e := Written(a, a.pts - s.l.origin, 0, 0, None);
    assert [] + [e] == [e];
    t := s.(sh := s.sh.(aq := []), aout := Out(0, [e]));
  }

  lemma LastPacket(before: seq<Action>, s: State) returns (actions: seq<Action>, t: State)
    requires Run(Start(true, true), before, s)
    requires s.pc.Loop? && s.sh.stopped && s.sh.video && s.sh.audio && s.sh.vq == [] && s.sh.aq == []
    requires s.l.v.None? && s.l.a.None? && HasMedia(s.l.prev)
    ensures Run(Start(true, true), actions, t) && t.pc == Ended(true)
    ensures t.aout == s.aout && t.l.rule == s.l.rule && t.vIn == s.vIn && t.aIn == s.aIn
  {
    hide Run;
    RunSnoc(Start(true, true), before, s, PacketsTaken);
    actions := before + [PacketsTaken];
    var s1 := s.(pc := Finish);
    RunSnoc(Start(true, true), actions, s1, Finished(0, true));
    actions, t := actions + [Finished(0, true)], Exec(s1, Finished(0, true));
  }
}
