/** A recording that is not stopped goes on: it ends only when the first packet of a
    stream is not what it has to be, and its thread submits every packet that is
    due. */
module RecorderLive {
  import opened Common
  import opened Timestamps
  import opened Recorder
  import opened RecorderStop

  // ----- The invariant of a recording that is not stopped -----

  /** The first packet of a stream that expects a config packet is a media packet. */
  ghost predicate BadFirst(expects: bool, accepted: seq<Packet>) {
    expects && accepted != [] && accepted[0].Media?
  }

  ghost predicate GoodFirst(expects: bool, accepted: seq<Packet>) {
    expects ==> accepted != [] && accepted[0].Config?
  }

  ghost predicate HeaderBad(s: State) {
    BadFirst(s.sh.videoConfig, s.vIn) || BadFirst(s.sh.audioConfig, s.aIn)
  }

  ghost predicate HeaderGood(s: State) {
    GoodFirst(s.sh.videoConfig, s.vIn) && GoodFirst(s.sh.audioConfig, s.aIn)
  }

  ghost predicate AllOpen(sh: Shared) {
    (sh.video ==> sh.videoInit) && (sh.audio ==> sh.audioInit)
  }

  /** A packet taken for the header is the first one accepted. */
  ghost predicate FirstTaken(expects: bool, accepted: seq<Packet>, p: Option<Packet>) {
    if expects then accepted != [] && p == Some(accepted[0]) else p.None?
  }

  /** While the origin is not chosen, one hand waits for the other. */
  ghost predicate HandsWait(s: State) {
    if s.l.rule.Unset? then
      (s.l.v.Some? ==> s.sh.audio && s.l.a.None?) && (s.l.a.Some? ==> s.sh.video && s.l.v.None?)
    else s.l.v.None? && s.l.a.None?
  }

  ghost predicate Going(s: State) {
    match s.pc
    case WaitHeader => s.sh.vq == s.vIn && s.sh.aq == s.aIn
    case WriteHeader(v, a) =>
      && AllOpen(s.sh)
      && FirstTaken(s.sh.videoConfig, s.vIn, v) && FirstTaken(s.sh.audioConfig, s.aIn, a)
    case Loop => AllOpen(s.sh) && HeaderGood(s) && HandsWait(s)
    case Work => AllOpen(s.sh) && HeaderGood(s)
    case Ended(_) => AllOpen(s.sh) && HeaderBad(s)
    case _ => false
  }

  ghost predicate LiveRun(s: State) {
    !s.sh.stopped ==> Going(s)
  }

  lemma SinkKeepsGoing(s: State, k: Sink)
    requires Inv(s) && LiveRun(s) && SinkEnabled(s.sh, k)
    ensures LiveRun(Exec(s, SinkAction(k)))
  {
    hide OutInv, OriginInv, UnsetInv, LiveInv, Complete, Submitted;
  }

  lemma HeaderKeepsGoing(s: State)
    requires Inv(s) && LiveRun(s) && Enabled(s, HeaderTaken)
    ensures LiveRun(TakeHeader(s))
  {
    hide OutInv, OriginInv, UnsetInv, LiveInv, Complete, Submitted, TakeHeader;
    HeaderIsTaken(s);
  }

  lemma PutKeepsGoing(s: State)
    requires Inv(s) && LiveRun(s) && s.pc.WriteHeader?
    ensures LiveRun(PutHeader(s, true))
  {
    hide OutInv, OriginInv, UnsetInv, Complete, Submitted, Conserved, VideoFlow;
  }

  lemma TakeKeepsGoing(s: State)
    requires Inv(s) && LiveRun(s) && Enabled(s, PacketsTaken)
    ensures LiveRun(TakePackets(s))
  {
    hide OutInv, OriginInv, UnsetInv, LiveInv, Complete, Submitted, TakePackets;
    TakeOutcome(s);
  }

  /** A turn that cannot choose the origin goes back to the loop. */
  lemma WorkKeepsGoing(s: State, m: Muxer)
    requires Inv(s) && LiveRun(s) && Enabled(s, Worked(m)) && m.vOk && m.aOk
    ensures LiveRun(DoWork(s, m))
  {
    hide OutInv, OriginInv, UnsetInv, Complete, Submitted, Conserved, VideoFlow, Submit;
    var s0 := Chosen(s);
    var t := DoWork(s, m);
    if !s.sh.stopped {
      assert t.sh == s.sh && t.vIn == s.vIn && t.aIn == s.aIn;
      if s0.l.rule.Unset? {
        assert s.l.rule.Unset?;
      } else {
        assert t.pc.Loop? && t.l.v.None? && t.l.a.None? && t.l.rule == s0.l.rule;
      }
    }
  }

  lemma StepKeepsGoing(s: State, a: Action)
    requires Inv(s) && LiveRun(s) && Enabled(s, a) && MuxerOk(a)
    ensures LiveRun(Exec(s, a))
  {
    hide Inv, LiveRun, SinkStep, TakeHeader, PutHeader, TakePackets, DoWork, DoFinish;
    match a
    case SinkAction(k) => SinkKeepsGoing(s, k);
    case HeaderTaken => HeaderKeepsGoing(s);
    case HeaderWritten(_) => PutKeepsGoing(s);
    case PacketsTaken => TakeKeepsGoing(s);
    case Worked(m) => WorkKeepsGoing(s, m);
    case Finished(r, ok) => FinishIsStopped(s, r, ok);
  }

  lemma FinishIsStopped(s: State, rescaled: i64, ok: bool)
    requires Inv(s) && s.pc.Finish?
    ensures IsMedia(s.l.prev) && LiveRun(DoFinish(s, rescaled, ok))
  {
    hide OutInv, OriginInv, UnsetInv, Complete, Submitted, Conserved;
  }

  lemma {:induction false} RunKeepsGoing(s: State, actions: seq<Action>, t: State)
    requires Inv(s) && LiveRun(s) && Run(s, actions, t)
    requires forall i :: 0 <= i < |actions| ==> MuxerOk(actions[i])
    ensures Inv(t) && LiveRun(t)
    decreases |actions|
  {
    hide Inv, LiveRun, Exec, Enabled, MuxerOk;
    if actions != [] {
      ExecKeepsInv(s, actions[0]);
      StepKeepsGoing(s, actions[0]);
      RunKeepsGoing(Exec(s, actions[0]), actions[1..], t);
    }
  }

  lemma Reachable(video: bool, audio: bool, actions: seq<Action>, t: State)
    requires Run(Start(video, audio), actions, t)
    requires forall i :: 0 <= i < |actions| ==> MuxerOk(actions[i])
    ensures Inv(t) && LiveRun(t)
  {
    hide Run, Inv, MuxerOk;
    StartInv(video, audio);
    RunKeepsGoing(Start(video, audio), actions, t);
  }

  /** With a muxer that works, a recording that was not stopped has not ended, unless
      the first packet of a stream that expects a config packet is a media packet. */
  lemma EndsOnlyWhenStopped(video: bool, audio: bool, actions: seq<Action>, t: State)
    requires Run(Start(video, audio), actions, t) && !t.sh.stopped
    requires forall i :: 0 <= i < |actions| ==> MuxerOk(actions[i])
    ensures t.pc.Ended? ==>
              && t.pc == Ended(false)
              && (|| (t.sh.videoConfig && t.vIn != [] && t.vIn[0].Media?)
                  || (t.sh.audioConfig && t.aIn != [] && t.aIn[0].Media?))
    ensures t.pc.Loop? || t.pc.Work? ==>
              && (t.sh.video ==> t.sh.videoInit) && (t.sh.audio ==> t.sh.audioInit)
              && (t.sh.videoConfig ==> t.vIn != [] && t.vIn[0].Config?)
              && (t.sh.audioConfig ==> t.aIn != [] && t.aIn[0].Config?)
  {
    hide Run, MuxerOk, OutInv, OriginInv, UnsetInv, LiveInv, Submitted;
    Reachable(video, audio, actions, t);
  }

  // ----- Progress -----

  /** What the thread does next, with a muxer that works. */
  function ThreadNext(pc: Pc): Action
    requires Live(pc)
  {
    if pc.WaitHeader? then HeaderTaken
    else if pc.WriteHeader? then HeaderWritten(true)
    else if pc.Loop? then PacketsTaken
    else if pc.Work? then Worked(Muxer(true, 0, true, 0))
    else Finished(0, true)
  }

  /** The thread cannot go on: it ended, or waits for its producers. */
  ghost predicate Rests(s: State) {
    !Live(s.pc) || !Enabled(s, ThreadNext(s.pc))
  }

  /** An upper bound of the thread's steps before it rests. */
  ghost function LiveWork(s: State): nat {
    4 * (|s.sh.vq| + |s.sh.aq|) + 2 * (Holding(s.l.v) + Holding(s.l.a)) +
    match s.pc
    case WaitHeader => 4
    case WriteHeader(_, _) => 3
    case Loop => 1
    case Work => 2
    case Finish => 1
    case _ => 0
  }

  lemma HeaderWorks(s: State)
    requires Inv(s) && !s.sh.stopped && s.pc.WaitHeader?
    ensures LiveWork(TakeHeader(s)) < LiveWork(s) && SameFlags(s, TakeHeader(s))
  {
    hide OutInv, OriginInv, UnsetInv, LiveInv, Complete, Submitted, TakeHeader;
    HeaderIsTaken(s);
    HeaderKeepsFlags(s);
  }

  lemma TakeWorks(s: State)
    requires Inv(s) && !s.sh.stopped && Enabled(s, PacketsTaken)
    ensures LiveWork(TakePackets(s)) < LiveWork(s) && SameFlags(s, TakePackets(s))
  {
    hide OutInv, OriginInv, UnsetInv, LiveInv, Complete, Submitted, TakePackets;
    TakeOutcome(s);
    TakeKeepsFlags(s);
  }

  lemma WorkWorks(s: State, m: Muxer)
    requires Inv(s) && Enabled(s, Worked(m))
    ensures LiveWork(DoWork(s, m)) < LiveWork(s) && SameFlags(s, DoWork(s, m))
  {
    hide OutInv, OriginInv, UnsetInv, LiveInv, Complete, Submitted, Submit, ChooseOrigin;
    WorkKeepsFlags(s, m);
    var s0 := Chosen(s);
    assert s0.sh == s.sh && Holding(s0.l.v) <= Holding(s.l.v) && Holding(s0.l.a) <= Holding(s.l.a);
    if !s0.l.rule.Unset? {
      var s1 := PutVideo(s0, m);
      assert s1.sh == s.sh && s1.l.a == s0.l.a;
    }
  }

  lemma ThreadWorks(s: State)
    requires Inv(s) && !s.sh.stopped && !Rests(s)
    ensures var t := Exec(s, ThreadNext(s.pc)); LiveWork(t) < LiveWork(s) && SameFlags(s, t)
  {
    hide Inv, TakeHeader, TakePackets, DoWork, DoFinish, LiveWork;
    if s.pc.WaitHeader? {
      HeaderWorks(s);
    } else if s.pc.Loop? {
      TakeWorks(s);
    } else if s.pc.Work? {
      WorkWorks(s, Muxer(true, 0, true, 0));
    } else {
      EndWorks(s);
    }
  }

  lemma EndWorks(s: State)
    requires !Rests(s) && (s.pc.WriteHeader? || s.pc.Finish?)
    ensures var t := Exec(s, ThreadNext(s.pc)); LiveWork(t) < LiveWork(s) && SameFlags(s, t)
  {
  }

  ghost predicate ThreadOnly(more: seq<Action>) {
    forall i :: 0 <= i < |more| ==> ThreadAction(more[i]) && MuxerOk(more[i])
  }

  lemma {:induction false} ThreadRests(s: State) returns (more: seq<Action>, u: State)
    requires Inv(s) && LiveRun(s) && !s.sh.stopped
    ensures Run(s, more, u) && |more| <= LiveWork(s) && ThreadOnly(more)
    ensures Inv(u) && LiveRun(u) && Rests(u) && !u.sh.stopped
    ensures u.vIn == s.vIn && u.aIn == s.aIn
    decreases LiveWork(s)
  {
    hide Inv, LiveRun, Exec, LiveWork, Enabled;
    if Rests(s) {
      return [], s;
    }
    var a := ThreadNext(s.pc);
    ThreadWorks(s);
    ExecKeepsInv(s, a);
    StepKeepsGoing(s, a);
    var rest;
    rest, u := ThreadRests(Exec(s, a));
    more := [a] + rest;
    assert more[1..] == rest;
  }

  /** An enabled stream that was not opened, or from which a config packet is still
      expected. */
  ghost predicate AwaitsHeader(s: State) {
    || (s.sh.video && !s.sh.videoInit) || (s.sh.audio && !s.sh.audioInit)
    || (s.sh.videoConfig && s.vIn == []) || (s.sh.audioConfig && s.aIn == [])
  }

  /** An enabled stream without any media packet, or no stream at all. */
  ghost predicate AwaitsOrigin(s: State) {
    || (s.sh.video && MediaOf(s.vIn) == []) || (s.sh.audio && MediaOf(s.aIn) == [])
    || (!s.sh.video && !s.sh.audio)
  }

  /** All that is due was submitted: everything but the newest video packet, whose
      duration is not known yet. */
  ghost predicate UpToDate(s: State) {
    && Packets(s.aout.written) == MediaOf(s.aIn)
    && Packets(s.vout.written) + Held(s.l.prev) == MediaOf(s.vIn)
  }

  lemma RestMeans(u: State)
    requires Inv(u) && LiveRun(u) && Rests(u) && !u.sh.stopped
    ensures || (u.pc.WaitHeader? && AwaitsHeader(u))
            || (u.pc == Ended(false) && HeaderBad(u))
            || (u.pc.Loop? && u.l.rule.Unset? && AwaitsOrigin(u))
            || (u.pc.Loop? && !u.l.rule.Unset? && UpToDate(u))
  {
    hide OutInv, OriginInv, Submitted, MediaOf, Packets, DurationInv;
    if u.pc.Loop? {
      assert u.l.v.None? ==> u.sh.vq == [];
      assert u.l.a.None? ==> u.sh.aq == [];
      Emptied(u.vIn, u.vout.written, u.l.prev, u.l.v, u.sh.vq);
      Emptied(u.aIn, u.aout.written, None, u.l.a, u.sh.aq);
    }
  }

  /** With nothing in hand and nothing queued, all was submitted or is delayed. */
  lemma Emptied(accepted: seq<Packet>, w: seq<Written>, prev: Option<Packet>, hand: Option<Packet>, q: seq<Packet>)
    requires Conserved(accepted, w, prev, hand, q)
    ensures hand.None? && q == [] ==> MediaOf(accepted) == Packets(w) + Held(prev)
    ensures hand.None? && q == [] && w == [] && prev.None? ==> MediaOf(accepted) == []
    ensures Packets(w) + Held(None) == Packets(w)
  {
  }

  /** Main theorem: from every reachable state of a recording that is not stopped,
      with a muxer that works, the thread alone rests within a bounded number of
      steps, and then it waits for a stream to be opened or for a config packet, it
      found a media packet in place of one, it waits for the first media packet of an
      enabled stream, or everything that is due was submitted. */
  lemma RecordingGoesOn(video: bool, audio: bool, actions: seq<Action>, t: State)
      returns (more: seq<Action>, u: State)
    requires Run(Start(video, audio), actions, t) && !t.sh.stopped
    requires forall i :: 0 <= i < |actions| ==> MuxerOk(actions[i])
    ensures Run(t, more, u) && |more| <= LiveWork(t) && ThreadOnly(more)
    ensures u.vIn == t.vIn && u.aIn == t.aIn
    ensures || (u.pc.WaitHeader? && AwaitsHeader(u))
            || (u.pc == Ended(false) && HeaderBad(u))
            || (u.pc.Loop? && u.l.rule.Unset? && AwaitsOrigin(u))
            || (u.pc.Loop? && !u.l.rule.Unset? && UpToDate(u))
  {
    hide Run, Inv, LiveRun, MuxerOk, LiveWork;
    Reachable(video, audio, actions, t);
    more, u := ThreadRests(t);
    RestMeans(u);
  }

  // ----- Failures, and streams that take no part -----

  /** A failing muxer ends the recording with an error, except for the last packet. */
  lemma FailureEnds(s: State, a: Action)
    requires Inv(s) && Enabled(s, a)
    ensures a == HeaderWritten(false) ==> Exec(s, a).pc == Ended(false)
    ensures a.Finished? ==> Exec(s, a).pc == Ended(a.trailerOk)
    ensures a.Worked? && |Exec(s, a).vout.written| > |s.vout.written| && !a.m.vOk ==> Exec(s, a).pc == Ended(false)
    ensures a.Worked? && |Exec(s, a).aout.written| > |s.aout.written| && !a.m.aOk ==> Exec(s, a).pc == Ended(false)
  {
    hide OutInv, OriginInv, UnsetInv, LiveInv, Complete, Submitted, ChooseOrigin;
  }

  /** Once stopped, no video stream is opened and no packet is accepted; a disabled
      audio stream takes no part. */
  lemma StoppedOrDisabled(s: State, k: Sink)
    requires SinkEnabled(s.sh, k)
    ensures var t := Exec(s, SinkAction(k));
            && (s.sh.stopped ==> t.vIn == s.vIn && t.aIn == s.aIn && t.sh.vq == s.sh.vq && t.sh.aq == s.sh.aq
                                 && t.sh.videoInit == s.sh.videoInit)
            && (k.AudioDisable? || !s.sh.audio ==> !t.sh.audio && t.sh.aq == s.sh.aq)
            && (k.Stop? ==> t.sh.stopped)
  {
  }
}
