/** The latest frame handed from the decoder to the user interface: a one-slot
    buffer under a mutex, and an event posted only when the slot was empty. */
module FrameMailbox {
  import opened Common

  type Frame = nat

  // ----- The slot -----

  /** Two preallocated frames; an empty frame is `None`. */
  class FrameBuffer {
    var pendingFrame: Option<Frame>
    var tmpFrame: Option<Frame>
    var pendingFrameConsumed: bool

    ghost predicate Valid()
      reads this
    {
      tmpFrame.None? && (pendingFrameConsumed <==> pendingFrame.None?)
    }

    /** The frame waiting to be consumed. */
    ghost function Waiting(): Option<Frame>
      requires Valid()
      reads this
    {
      pendingFrame
    }

    constructor ()
      ensures Valid() && Waiting() == None
    {
      pendingFrame, tmpFrame, pendingFrameConsumed := None, None, true;
    }

    method HasFrame() returns (b: bool)
      requires Valid()
      ensures b == Waiting().Some?
    {
      b := !pendingFrameConsumed;
    }

    /** Replaces the waiting frame; when the new frame cannot be referenced, the
        old one stays. */
    method Push(f: Frame, refOk: bool) returns (ok: bool)
      requires Valid()
      modifies this
      ensures Valid() && ok == refOk
      ensures Waiting() == if ok then Some(f) else old(Waiting())
    {
      if !refOk {
        return false;
      }
      tmpFrame := Some(f);
      pendingFrame, tmpFrame := tmpFrame, pendingFrame;
      tmpFrame := None;
      pendingFrameConsumed := false;
      return true;
    }

    method Consume() returns (dst: Frame)
      requires Valid() && Waiting().Some?
      modifies this
      ensures Valid() && Waiting() == None && Some(dst) == old(Waiting())
    {
      pendingFrameConsumed := true;
      dst := pendingFrame.value;
      pendingFrame := None;
    }
  }

  // ----- Both threads -----

  /** The decoder thread: between frames, about to post the event, stopped by an
      error before or after its frame was stored. */
  datatype Producer = Ready | Posting | Stopped | Unposted

  /** The user interface thread: it took an event and is about to consume. */
  datatype Ui = Idle | Handling

  datatype State = State(
    slot: Option<Frame>, producer: Producer, events: nat, ui: Ui, crashed: bool,
    paused: bool, frame: Option<Frame>, resumeFrame: Option<Frame>,
    pushed: seq<Frame>, consumed: seq<int>, overwritten: nat) // consumed: positions in pushed

  const START := State(None, Ready, 0, Idle, false, false, None, None, [], [], 0)

  datatype Action =
    | Push(f: Frame, refOk: bool)
    | Post(ok: bool)
    | TakeEvent
    | Consume
    | SetPaused(paused: bool)

  predicate Enabled(s: State, a: Action) {
    match a
    case Push(_, _) => s.producer.Ready?
    case Post(_) => s.producer.Posting?
    case TakeEvent => s.events > 0 && s.ui.Idle?
    case Consume => s.ui.Handling?
    case SetPaused(_) => s.ui.Idle?
  }

  /** A paused screen keeps the newest frame aside, and shows it on resume. */
  function Show(s: State, f: Frame): State {
    if s.paused then s.(resumeFrame := Some(f)) else s.(frame := Some(f))
  }

  function Exec(s: State, a: Action): State
    requires Enabled(s, a)
  {
    match a
    case Push(f, refOk) =>
      if !refOk then s.(producer := Stopped)
      else
        var previousSkipped := s.slot.Some?;
        s.(slot := Some(f), pushed := s.pushed + [f],
           overwritten := s.overwritten + (if previousSkipped then 1 else 0),
           producer := if previousSkipped then Ready else Posting)
    case Post(ok) =>
      if ok then s.(events := s.events + 1, producer := Ready) else s.(producer := Unposted)
    case TakeEvent => s.(events := s.events - 1, ui := Handling)
    case Consume =>
      if s.slot.None? then s.(crashed := true)
      else Show(s, s.slot.value).(slot := None, ui := Idle, consumed := s.consumed + [|s.pushed| - 1])
    case SetPaused(p) =>
      if !p && !s.paused then s
      else if s.paused && s.resumeFrame.Some? then s.(frame := s.resumeFrame, resumeFrame := None, paused := p)
      else s.(paused := p)
  }

  /** The screen: its methods are the critical sections that the steps describe. */
  class ScreenSink {
    const fb: FrameBuffer
    var paused: bool
    var frame: Option<Frame>
    var resumeFrame: Option<Frame>

    ghost predicate Matches(s: State)
      reads this, fb
    {
      && fb.Valid() && fb.Waiting() == s.slot
      && paused == s.paused && frame == s.frame && resumeFrame == s.resumeFrame
    }

    constructor ()
      ensures fresh(fb) && Matches(START)
    {
      fb := new FrameBuffer();
      paused, frame, resumeFrame := false, None, None;
    }

    /** Called by the decoder; says whether an event must be posted. */
    method SinkPush(f: Frame, refOk: bool, ghost s: State) returns (ok: bool, post: bool)
      requires Matches(s) && s.producer.Ready?
      modifies fb
      ensures var t := Exec(s, Push(f, refOk)); Matches(t) && ok == refOk && post == t.producer.Posting?
    {
      var previousSkipped := fb.HasFrame();
      ok := fb.Push(f, refOk);
      post := ok && !previousSkipped;
    }

    /** Called for an event; the frame must be there, as the code asserts. */
    method UpdateFrame(ghost s: State)
      requires Matches(s) && s.ui.Handling? && s.slot.Some?
      modifies this, fb
      ensures Matches(Exec(s, Consume))
    {
      var f := fb.Consume();
      if paused {
        resumeFrame := Some(f);
      } else {
        frame := Some(f);
      }
    }

    method SetPaused(p: bool, ghost s: State)
      requires Matches(s) && s.ui.Idle?
      modifies this
      ensures Matches(Exec(s, Action.SetPaused(p)))
    {
      if !p && !paused {
        return;
      }
      if paused && resumeFrame.Some? {
        frame := resumeFrame;
        resumeFrame := None;
      }
      paused := p;
    }
  }

  ghost predicate Run(s: State, actions: seq<Action>, t: State)
    decreases |actions|
  {
    if actions == [] then s == t
    else Enabled(s, actions[0]) && Run(Exec(s, actions[0]), actions[1..], t)
  }

  /** Events queued, about to be posted or being handled. */
  function Tokens(s: State): nat {
    s.events + (if s.producer.Posting? then 1 else 0) + (if s.ui.Handling? then 1 else 0)
  }

  ghost predicate TokenInv(s: State) {
    if s.producer.Unposted? then Tokens(s) == 0 && s.slot.Some? else Tokens(s) == if s.slot.Some? then 1 else 0
  }

  /** The waiting frame is the newest; the others were consumed in order or
      overwritten. */
  ghost predicate HistoryInv(slot: Option<Frame>, pushed: seq<Frame>, consumed: seq<int>, overwritten: nat) {
    && (slot.Some? ==> pushed != [] && slot.value == pushed[|pushed| - 1])
    && |pushed| == |consumed| + overwritten + (if slot.Some? then 1 else 0)
    && (forall i :: 0 <= i < |consumed| ==> 0 <= consumed[i] < |pushed| - (if slot.Some? then 1 else 0))
    && (forall i, j :: 0 <= i < j < |consumed| ==> consumed[i] < consumed[j])
  }

  /** The frame consumed last is displayed, or kept aside while paused. */
  ghost predicate ShownInv(s: State) {
    && (s.resumeFrame.Some? ==> s.paused)
    && (s.consumed == [] ==> s.frame.None? && s.resumeFrame.None?)
    && (s.consumed != [] ==>
          var newest := s.consumed[|s.consumed| - 1];
          && 0 <= newest < |s.pushed|
          && Some(s.pushed[newest]) == if s.resumeFrame.Some? then s.resumeFrame else s.frame)
  }

  ghost predicate Inv(s: State) {
    && !s.crashed && TokenInv(s) && ShownInv(s)
    && HistoryInv(s.slot, s.pushed, s.consumed, s.overwritten)
  }

  lemma WaitingNewest(slot: Option<Frame>, pushed: seq<Frame>, consumed: seq<int>, overwritten: nat)
    requires HistoryInv(slot, pushed, consumed, overwritten)
    ensures slot.Some? ==> pushed != [] && slot.value == pushed[|pushed| - 1]
  {
  }

  lemma PushKeepsHistory(slot: Option<Frame>, pushed: seq<Frame>, consumed: seq<int>, overwritten: nat, f: Frame)
    requires HistoryInv(slot, pushed, consumed, overwritten)
    ensures HistoryInv(Some(f), pushed + [f], consumed, overwritten + (if slot.Some? then 1 else 0))
  {
  }

  lemma ConsumeKeepsHistory(slot: Option<Frame>, pushed: seq<Frame>, consumed: seq<int>, overwritten: nat)
    requires HistoryInv(slot, pushed, consumed, overwritten) && slot.Some?
    ensures HistoryInv(None, pushed, consumed + [|pushed| - 1], overwritten)
  {
  }

  lemma ExecKeepsShown(s: State, a: Action)
    requires Inv(s) && Enabled(s, a)
    ensures ShownInv(Exec(s, a))
  {
    hide HistoryInv, TokenInv;
    WaitingNewest(s.slot, s.pushed, s.consumed, s.overwritten);
  }

  lemma ExecKeepsInv(s: State, a: Action)
    requires Inv(s) && Enabled(s, a)
    ensures Inv(Exec(s, a))
  {
    hide HistoryInv, ShownInv;
    ExecKeepsShown(s, a);
    if a.Push? {
      PushKeepsHistory(s.slot, s.pushed, s.consumed, s.overwritten, a.f);
    } else if a.Consume? {
      ConsumeKeepsHistory(s.slot, s.pushed, s.consumed, s.overwritten);
    }
  }

  lemma {:induction false} RunKeepsInv(s: State, actions: seq<Action>, t: State)
    requires Inv(s) && Run(s, actions, t)
    ensures Inv(t)
    decreases |actions|
  {
    hide Inv;
    if actions != [] {
      ExecKeepsInv(s, actions[0]);
      RunKeepsInv(Exec(s, actions[0]), actions[1..], t);
    }
  }

  /** Main theorem: as long as events can be posted, a frame waits exactly when
      one event is queued, about to be posted or being handled, and there is
      never a second one. So consuming always finds a frame, and it is the newest
      one; frames are consumed in order; every frame pushed was consumed,
      overwritten by a newer one, or is still waiting; and the frame consumed last
      is displayed, or kept aside while the screen is paused. */
  lemma MailboxSafety(actions: seq<Action>, t: State)
    requires Run(START, actions, t)
    ensures !t.crashed
    ensures !t.producer.Unposted? ==> (t.slot.Some? <==> Tokens(t) == 1) && Tokens(t) <= 1
    ensures t.ui.Handling? ==> t.slot.Some? && t.pushed != [] && t.slot.value == t.pushed[|t.pushed| - 1]
    ensures forall i, j :: 0 <= i < j < |t.consumed| ==> t.consumed[i] < t.consumed[j] < |t.pushed|
    ensures |t.pushed| == |t.consumed| + t.overwritten + (if t.slot.Some? then 1 else 0)
    ensures ShownInv(t)
  {
    RunKeepsInv(START, actions, t);
  }

  /** While it is paused, the screen keeps displaying the same frame, and the frames
      consumed meanwhile are kept aside, the newest one last. */
  lemma {:induction false} PausedKeepsFrame(s: State, actions: seq<Action>, t: State)
    requires Inv(s) && s.paused && Run(s, actions, t)
    requires forall i :: 0 <= i < |actions| ==> !actions[i].SetPaused?
    ensures t.paused && t.frame == s.frame
    ensures |t.consumed| > |s.consumed| ==> t.resumeFrame.Some?
    ensures s.resumeFrame.Some? ==> t.resumeFrame.Some?
    ensures |t.consumed| >= |s.consumed|
    decreases |actions|
  {
    if actions != [] {
      ExecKeepsInv(s, actions[0]);
      PausedKeepsFrame(Exec(s, actions[0]), actions[1..], t);
    }
  }

  /** Pausing keeps the frame; resuming, or pausing again, displays the frame kept
      aside, if any. */
  lemma PauseAndResume(s: State, p: bool)
    requires Inv(s) && s.ui.Idle?
    ensures var t := Exec(s, SetPaused(p));
            && t.paused == p && t.slot == s.slot && t.consumed == s.consumed
            && t.frame == (if s.resumeFrame.Some? then s.resumeFrame else s.frame)
            && t.resumeFrame.None?
  {
    hide HistoryInv, TokenInv;
  }

  /** A failed post is the only way to leave a frame behind: afterwards the frame
      waits and no event will ever announce it. */
  lemma {:induction false} UnpostedStaysSilent(s: State, actions: seq<Action>, t: State)
    requires Inv(s) && s.producer.Unposted? && Run(s, actions, t)
    ensures t.producer.Unposted? && Tokens(t) == 0 && t.slot.Some? && t.slot == s.slot
    decreases |actions|
  {
    if actions != [] {
      ExecKeepsInv(s, actions[0]);
      UnpostedStaysSilent(Exec(s, actions[0]), actions[1..], t);
    }
  }
}
