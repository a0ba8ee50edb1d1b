/** Negative timestamps in a recording, told from the packets left at the stop. */
module RecorderOrigin {
  import opened Common
  import opened Timestamps
  import opened Recorder
  import opened RecorderStop

  /** Of the first packets left, only the video packet can give the origin. */
  predicate TakesVideo(video: bool, v: Option<Packet>, a: Option<Packet>) {
    video && HasMedia(v) && !HasMedia(a)
  }

  /** Whether a stopped recording with audio takes, or took, its origin from the video
      alone. */
  predicate VideoAlone(s: State) {
    if !s.l.rule.Unset? then s.l.rule.StoppedVideo?
    else
      match s.pc
      case WaitHeader =>
        && !HeaderFails(ConfigV(s.sh), ConfigA(s.sh))
        && TakesVideo(s.sh.video, Head(After(s.sh.vq, ConfigV(s.sh))), Head(After(s.sh.aq, ConfigA(s.sh))))
      case WriteHeader(v, a) => !HeaderFails(v, a) && TakesVideo(s.sh.video, Head(s.sh.vq), Head(s.sh.aq))
      case Loop => TakesVideo(s.sh.video, First(s.l.v, s.sh.vq), First(s.l.a, s.sh.aq))
      case Work => TakesVideo(s.sh.video, s.l.v, s.l.a)
      case _ => false
  }

  lemma HeaderKeepsRule(s: State)
    requires Inv(s) && s.sh.stopped && Enabled(s, HeaderTaken)
    ensures VideoAlone(TakeHeader(s)) == VideoAlone(s)
  {
    hide OutInv, OriginInv, UnsetInv, LiveInv, Complete, Submitted, TakeHeader, HeaderReady;
    HeaderIsTaken(s);
  }

  lemma TakeKeepsRule(s: State)
    requires Inv(s) && s.sh.stopped && Enabled(s, PacketsTaken)
    ensures VideoAlone(TakePackets(s)) == VideoAlone(s)
  {
    hide OutInv, OriginInv, UnsetInv, LiveInv, Complete, Submitted, TakePackets;
    TakeOutcome(s);
  }

  /** After a turn of a stopped recording, the rule is set or the recording ended. */
  lemma TurnSetsRule(s: State, m: Muxer)
    requires s.pc.Work? && s.sh.stopped && IsMedia(s.l.prev)
    ensures var t := DoWork(s, m);
            && (!s.l.rule.Unset? ==> t.l.rule == s.l.rule)
            && (t.l.rule.Unset? ==> t.pc.Ended?)
  {
    hide Submit;
  }

  lemma WorkKeepsRule(s: State, m: Muxer)
    requires Inv(s) && s.sh.stopped && s.sh.audio && Enabled(s, Worked(m))
    ensures VideoAlone(DoWork(s, m)) == VideoAlone(s)
  {
    hide DoWork, Inv, TakesVideo;
    TurnSetsRule(s, m);
    if s.l.rule.Unset? {
      StoppedVideoWhen(s, Worked(m));
      VideoMeans(s.sh.video, s.l.v, s.l.a);
    }
  }

  lemma VideoMeans(video: bool, v: Option<Packet>, a: Option<Packet>)
    ensures TakesVideo(video, v, a) <==> video && HasMedia(v) && !HasMedia(a)
  {
  }

  lemma EndKeepsRule(s: State, a: Action)
    requires Inv(s) && Enabled(s, a) && MuxerOk(a) && (a.HeaderWritten? || a.Finished?)
    ensures VideoAlone(Exec(s, a)) == VideoAlone(s)
  {
    hide OutInv, OriginInv, UnsetInv, Complete, Submitted, Conserved, VideoFlow;
  }

  /** A stopped recording accepts no packets, and an open audio stream stays open. */
  lemma StoppedKeepsIn(s: State, a: Action)
    requires s.sh.stopped && Enabled(s, a)
    ensures var t := Exec(s, a);
            && t.vIn == s.vIn && t.aIn == s.aIn && t.sh.stopped
            && (s.sh.audio && s.sh.audioInit ==> t.sh.audio && t.sh.audioInit)
  {
    hide TakePackets, DoWork, DoFinish, TakeHeader, HeaderReady;
    match a
    case SinkAction(_) =>
    case HeaderTaken => HeaderKeepsFlags(s);
    case HeaderWritten(_) =>
    case PacketsTaken => TakeKeepsFlags(s);
    case Worked(m) => WorkKeepsFlags(s, m);
    case Finished(r, ok) => FinishKeepsFlags(s, r, ok);
  }

  lemma SinkKeepsRule(s: State, k: Sink)
    requires s.sh.stopped && s.sh.audio && s.sh.audioInit && SinkEnabled(s.sh, k)
    ensures VideoAlone(Exec(s, SinkAction(k))) == VideoAlone(s)
  {
    assert Exec(s, SinkAction(k)) == s;
  }

  lemma StepKeepsRule(s: State, a: Action)
    requires Inv(s) && s.sh.stopped && s.sh.audio && s.sh.audioInit && Enabled(s, a) && MuxerOk(a)
    ensures VideoAlone(Exec(s, a)) == VideoAlone(s)
  {
    hide Inv, VideoAlone, TakeHeader, TakePackets, DoWork, DoFinish;
    match a
    case SinkAction(k) => SinkKeepsRule(s, k);
    case HeaderTaken => HeaderKeepsRule(s);
    case PacketsTaken => TakeKeepsRule(s);
    case Worked(m) => WorkKeepsRule(s, m);
    case _ => EndKeepsRule(s, a);
  }

  lemma {:induction false} RunKeepsRule(s: State, actions: seq<Action>, t: State)
    requires Inv(s) && s.sh.stopped && Run(s, actions, t)
    requires forall i :: 0 <= i < |actions| ==> MuxerOk(actions[i])
    ensures t.vIn == s.vIn && t.aIn == s.aIn
    ensures s.sh.audio && s.sh.audioInit ==> VideoAlone(t) == VideoAlone(s)
    decreases |actions|
  {
    hide Inv, VideoAlone, Exec, Enabled, MuxerOk;
    if actions != [] {
      var a := actions[0];
      ExecKeepsInv(s, a);
      StoppedKeepsIn(s, a);
      if s.sh.audio && s.sh.audioInit {
        StepKeepsRule(s, a);
      }
      RunKeepsRule(Exec(s, a), actions[1..], t);
    }
  }

  lemma {:induction false} RunConcat(s: State, first: seq<Action>, m: State, second: seq<Action>, t: State)
    requires Run(s, first, m) && Run(m, second, t)
    ensures Run(s, first + second, t)
    decreases |first|
  {
    hide Exec, Enabled;
    var all := first + second;
    if first == [] {
      assert all == second;
    } else {
      assert all[0] == first[0] && all[1..] == first[1..] + second;
      RunConcat(Exec(s, first[0]), first[1..], m, second, t);
    }
  }

  /** Audio packets come from an open stream, and a complete recording with packets
      chose its origin. */
  lemma WithAudio(s: State)
    requires Inv(s) && MediaOf(s.aIn) != []
    ensures s.sh.audio && s.sh.audioInit
    ensures s.pc == Ended(true) ==> !s.l.rule.Unset?
  {
    hide OutInv, OriginInv, LiveInv;
    if s.pc == Ended(true) {
      PacketsAt(s.aout.written);
    }
  }

  /** Main theorem: with a muxer that works, a complete recording of nondecreasing
      packets has a negative audio timestamp exactly when, at the stop, only the
      first video packet left could give the origin, and the first audio packet is
      earlier than the first video packet. */
  lemma NegativeExactly(video: bool, audio: bool, before: seq<Action>, s: State, after: seq<Action>, t: State)
    requires Run(Start(video, audio), before, s) && s.sh.stopped && Run(s, after, t) && t.pc == Ended(true)
    requires forall i :: 0 <= i < |after| ==> MuxerOk(after[i])
    requires NonDecreasing(MediaOf(s.vIn)) && NonDecreasing(MediaOf(s.aIn))
    ensures var v, a := MediaOf(s.vIn), MediaOf(s.aIn);
            (forall i :: 0 <= i < |t.aout.written| ==> t.aout.written[i].relative >= 0) <==>
            !(VideoAlone(s) && v != [] && a != [] && a[0].pts < v[0].pts)
  {
    hide Run, Inv, MediaOf, MuxerOk;
    StartInv(video, audio);
    RunKeepsInv(Start(video, audio), before, s);
    RunKeepsInv(s, after, t);
    RunConcat(Start(video, audio), before, s, after, t);
    RunKeepsRule(s, after, t);
    AudioNegativeExactly(video, audio, before + after, t);
    if MediaOf(s.aIn) != [] {
      WithAudio(s);
      WithAudio(t);
    }
  }
}
