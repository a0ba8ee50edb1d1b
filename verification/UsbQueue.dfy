/** The keys that go through the USB thread: every accepted key is sent, in order,
    unless its wait for an acknowledgement fails. */
module UsbQueue {
  import Controller
  import opened PasteProtocol

  // ----- The invariant -----

  ghost function KeyOf(e: UsbEvent): seq<Key> {
    if e.Input? then [e.key] else []
  }

  /** The keys among the queued events. */
  ghost function Queued(events: seq<UsbEvent>): seq<Key> {
    if events == [] then [] else KeyOf(events[0]) + Queued(events[1..])
  }

  ghost function InHand(usb: Usb): seq<Key> {
    if usb.Acking? || usb.Injecting? then [usb.key] else []
  }

  /** The keys that are done with. */
  ghost function Keys(done: seq<Fate>): (r: seq<Key>)
    ensures |r| == |done| && forall i :: 0 <= i < |done| ==> r[i] == done[i].key
  {
    seq(|done|, i requires 0 <= i < |done| => done[i].key)
  }

  /** Accepted keys are done with, in hand or queued, in order. */
  ghost predicate OrderInv(accepted: seq<Key>, done: seq<Fate>, usb: Usb, events: seq<UsbEvent>) {
    accepted == Keys(done) + InHand(usb) + Queued(events)
  }

  /** A key is sent once its acknowledgement is there; only a key that waits is ever
      discarded. */
  ghost predicate FateInv(s: System) {
    && (forall i :: 0 <= i < |s.log.done| ==> FateOk(s.log.done[i], s.ack))
    && (s.usb.Acking? ==> s.usb.key.ackToWait != 0)
    && (s.usb.Injecting? ==> s.usb.key.ackToWait <= s.ack)
  }

  ghost predicate FateOk(f: Fate, ack: nat) {
    if f.Sent? then f.key.ackToWait <= ack else f.key.ackToWait != 0
  }

  ghost predicate UsbInv(s: System) {
    OrderInv(s.log.accepted, s.log.done, s.usb, s.events) && FateInv(s)
  }

  lemma {:induction false} QueuedAppend(events: seq<UsbEvent>, e: UsbEvent)
    ensures Queued(events + [e]) == Queued(events) + KeyOf(e)
  {
    if events == [] {
      assert events + [e] == [e] && [e][1..] == [];
    } else {
      assert (events + [e])[0] == events[0] && (events + [e])[1..] == events[1..] + [e];
      QueuedAppend(events[1..], e);
    }
  }

  lemma PushKeepsUsb(s: System, e: UsbEvent)
    requires UsbInv(s)
    ensures UsbInv(PushEvent(s, e))
  {
    hide Queued, FateOk;
    QueuedAppend(s.events, e);
    var t := PushEvent(s, e);
    var before := Keys(s.log.done) + InHand(s.usb);
    assert InHand(t.usb) == InHand(s.usb);
    assert before + (Queued(s.events) + KeyOf(e)) == before + Queued(s.events) + KeyOf(e);
  }

  lemma LookKeepsUsb(s: System)
    requires UsbInv(s) && s.usb.Looking?
    ensures UsbInv(UsbLook(s))
  {
    hide FateOk;
    var t := UsbLook(s);
    if !s.usbStopped && s.events != [] {
      var e := s.events[0];
      assert Queued(s.events) == KeyOf(e) + Queued(s.events[1..]);
      hide Queued;
      assert InHand(t.usb) == KeyOf(e);
      var k := Keys(s.log.done);
      assert k + [] + (KeyOf(e) + Queued(s.events[1..])) == k + KeyOf(e) + Queued(s.events[1..]);
    }
  }

  /** The key in hand is done with. */
  lemma DoneKeepsOrder(accepted: seq<Key>, done: seq<Fate>, usb: Usb, events: seq<UsbEvent>, f: Fate, usb': Usb)
    requires OrderInv(accepted, done, usb, events) && InHand(usb) == [f.key] && InHand(usb') == []
    ensures OrderInv(accepted, done + [f], usb', events)
  {
    hide Queued;
    assert Keys(done + [f]) == Keys(done) + [f.key];
    assert Keys(done) + [f.key] == Keys(done) + [f.key] + [];
  }

  lemma FinishKeepsUsb(s: System, a: Action)
    requires UsbInv(s) && Enabled(s, a) && (a.UsbPoll? || a.UsbInject?)
    ensures UsbInv(Exec(s, a))
  {
    hide Queued;
    var t := Exec(s, a);
    if t.log != s.log {
      var f := t.log.done[|s.log.done|];
      DoneKeepsOrder(s.log.accepted, s.log.done, s.usb, s.events, f, t.usb);
    }
  }

  /** Other steps do not touch the keys, and acknowledgements only grow. */
  lemma OthersKeepUsb(s: System, a: Action)
    requires UsbInv(s) && Enabled(s, a) && Inv(s)
    requires !a.CtrlVKey? && !a.PlainUsb? && !a.UsbNext? && !a.UsbPoll? && !a.UsbInject?
    ensures UsbInv(Exec(s, a))
  {
    hide Queued, Inv, OrderInv;
    ExecKeepsInv(s, a);
    SameKeys(s, a);
    var t := Exec(s, a);
    SameOrder(s.log.accepted, s.log.done, s.usb, t.usb, s.events);
  }

  lemma SameOrder(accepted: seq<Key>, done: seq<Fate>, usb: Usb, usb': Usb, events: seq<UsbEvent>)
    requires OrderInv(accepted, done, usb, events) && InHand(usb') == InHand(usb)
    ensures OrderInv(accepted, done, usb', events)
  {
  }

  lemma SameKeys(s: System, a: Action)
    requires Enabled(s, a) && !a.CtrlVKey? && !a.PlainUsb? && !a.UsbNext? && !a.UsbPoll? && !a.UsbInject?
    ensures var t := Exec(s, a);
            && t.log == s.log && t.events == s.events && InHand(t.usb) == InHand(s.usb)
            && (t.usb == s.usb || (!t.usb.Acking? && !t.usb.Injecting?))
  {
    hide Controller.Push, Controller.Check, Controller.Resize, Controller.Stop, DeviceStep, Offer;
  }

  lemma ExecKeepsUsb(s: System, a: Action)
    requires UsbInv(s) && Inv(s) && Enabled(s, a)
    ensures UsbInv(Exec(s, a))
  {
    hide Inv, Queued, FateOk;
    match a
    case CtrlVKey(supported, id) =>
      PushKeepsUsb(s, Input(Key(s.ui.sequence, id)));
    case PlainUsb(e) => PushKeepsUsb(s, e);
    case UsbNext => LookKeepsUsb(s);
    case UsbPoll(_) => FinishKeepsUsb(s, a);
    case UsbInject => FinishKeepsUsb(s, a);
    case _ => OthersKeepUsb(s, a);
  }

  lemma {:induction false} RunKeepsUsb(s: System, actions: seq<Action>, t: System)
    requires UsbInv(s) && Inv(s) && Run(s, actions, t)
    ensures UsbInv(t) && Inv(t)
    decreases |actions|
  {
    hide UsbInv, Inv, Exec, Enabled;
    if actions != [] {
      ExecKeepsUsb(s, actions[0]);
      ExecKeepsInv(s, actions[0]);
      RunKeepsUsb(Exec(s, actions[0]), actions[1..], t);
    }
  }

  lemma Reachable(actions: seq<Action>, t: System)
    requires Run(START, actions, t)
    ensures UsbInv(t) && Inv(t)
  {
    hide Run;
    StartInv();
    RunKeepsUsb(START, actions, t);
  }

  // ----- What holds in every run -----

  /** Main theorem: in every run, the accepted keys are, in order, those sent or
      discarded, the one in hand and those queued. A key is only sent when the
      acknowledgement it waits for was received, and only a key that waits is ever
      discarded: a plain key never is. */
  lemma KeysInOrder(actions: seq<Action>, t: System)
    requires Run(START, actions, t)
    ensures t.log.accepted == Keys(t.log.done) + InHand(t.usb) + Queued(t.events)
    ensures forall i :: 0 <= i < |t.log.done| ==>
              if t.log.done[i].Sent? then t.log.done[i].key.ackToWait <= t.ack
              else t.log.done[i].key.ackToWait != 0
  {
    hide Run, Queued;
    Reachable(actions, t);
    forall i | 0 <= i < |t.log.done|
      ensures if t.log.done[i].Sent? then t.log.done[i].key.ackToWait <= t.ack
              else t.log.done[i].key.ackToWait != 0
    {
      assert FateOk(t.log.done[i], t.ack);
    }
  }

  /** A key is accepted exactly while fewer than 60 events are queued; opening and
      closing always are. */
  lemma AcceptedExactly(s: System, e: UsbEvent)
    requires Enabled(s, PlainUsb(e))
    ensures var t := Exec(s, PlainUsb(e));
            && t.events == (if e.Input? && |s.events| >= 60 then s.events else s.events + [e])
            && t.log.done == s.log.done
            && t.log.accepted == s.log.accepted + (if |s.events| < 60 then KeyOf(e) else [])
  {
    assert s.log.accepted + [] == s.log.accepted;
  }

  /** A key waits as long as neither its acknowledgement arrives nor the wait times out
      or is interrupted. */
  lemma KeepsWaiting(s: System)
    requires s.usb.Acking? && !s.ackStopped && s.ack < s.usb.key.ackToWait
    ensures Exec(s, UsbPoll(false)) == s
    ensures Exec(s, UsbPoll(true)).log.done == s.log.done + [TimedOut(s.usb.key)]
  {
  }

  /** A stopped thread handles no further event; an interrupted wait ends it. */
  lemma StopIsImmediate(s: System, timedOut: bool)
    ensures Exec(s, UsbStop).usbStopped && Exec(s, AckInterrupt).ackStopped
    ensures s.usb.Looking? && s.usbStopped ==>
              var t := Exec(s, UsbNext); t.usb.Ended? && t.events == s.events && t.log == s.log
    ensures s.usb.Acking? && s.ackStopped ==>
              var t := Exec(s, UsbPoll(timedOut));
              t.usb.Ended? && t.log.done == s.log.done + [Interrupted(s.usb.key)]
  {
  }

  // ----- Nothing accepted is left behind -----

  predicate Asleep(usb: Usb) {
    usb == Sleeping(false) || usb.Ended?
  }

  /** What the USB thread does next when no further acknowledgement arrives. */
  function UsbTurn(usb: Usb): Action
    requires !Asleep(usb)
  {
    match usb
    case Sleeping(_) => UsbWake
    case Looking => UsbNext
    case Acking(_) => UsbPoll(true)
    case Injecting(_) => UsbInject
  }

  /** An upper bound of the number of turns before the thread blocks. */
  function UsbWork(s: System): nat {
    3 * |s.events| +
    match s.usb
    case Sleeping(signalled) => if signalled then 2 else 0
    case Looking => 1
    case Acking(_) => 3
    case Injecting(_) => 2
    case Ended => 0
  }

  predicate Going(s: System) {
    !s.usbStopped && !s.ackStopped && !s.usb.Ended?
  }

  /** A turn ends at most one key: it is sent exactly when its acknowledgement was
      received, or none is needed. */
  ghost predicate EndsKey(s: System, t: System) {
    || t.log == s.log
    || (exists f :: t.log == s.log.(done := s.log.done + [f]) && FairFate(f, s.ack))
  }

  ghost predicate FairFate(f: Fate, ack: nat) {
    f.Sent? <==> f.key.ackToWait <= ack
  }

  lemma UsbTurnWorks(s: System)
    requires Going(s) && !Asleep(s.usb) && FateInv(s)
    ensures var a := UsbTurn(s.usb);
            && Enabled(s, a)
            && var t := Exec(s, a);
               UsbWork(t) < UsbWork(s) && Going(t) && t.ack == s.ack && EndsKey(s, t)
  {
    var t := Exec(s, UsbTurn(s.usb));
    if s.usb.Injecting? || (s.usb.Acking? && s.usb.key.ackToWait > s.ack) {
      var f := t.log.done[|s.log.done|];
      assert FairFate(f, s.ack);
      assert t.log == s.log.(done := s.log.done + [f]);
    }
  }

  ghost predicate UsbOnly(more: seq<Action>) {
    forall i :: 0 <= i < |more| ==>
      more[i].UsbWake? || more[i].UsbNext? || more[i].UsbPoll? || more[i].UsbInject?
  }

  /** What a stretch of the thread's own turns does to the keys. */
  ghost predicate Ended(s: System, u: System) {
    && u.log.accepted == s.log.accepted && u.ack == s.ack && s.log.done <= u.log.done
    && forall i :: |s.log.done| <= i < |u.log.done| ==> FairFate(u.log.done[i], s.ack)
  }

  lemma {:induction false} UsbSettles(s: System) returns (more: seq<Action>, u: System)
    requires Inv(s) && UsbInv(s) && UsbWakeInv(s) && Going(s)
    ensures Run(s, more, u) && |more| <= UsbWork(s) && UsbOnly(more)
    ensures u.usb == Sleeping(false) && Ended(s, u)
    ensures UsbInv(u) && UsbWakeInv(u)
    decreases UsbWork(s)
  {
    hide Inv, OrderInv, Exec, Enabled, UsbWork, UsbWakeInv, FairFate, FateOk;
    if Asleep(s.usb) {
      return [], s;
    }
    var a := UsbTurn(s.usb);
    UsbTurnWorks(s);
    var t := Exec(s, a);
    ExecKeepsInv(s, a);
    ExecKeepsUsb(s, a);
    ExecKeepsUsbWake(s, a);
    var rest;
    rest, u := UsbSettles(t);
    more := [a] + rest;
    assert more[1..] == rest;
    EndedCons(s, t, u);
  }

  lemma EndedCons(s: System, t: System, u: System)
    requires EndsKey(s, t) && t.ack == s.ack && Ended(t, u)
    ensures Ended(s, u)
  {
    hide FairFate;
    if t.log != s.log {
      var f :| t.log == s.log.(done := s.log.done + [f]) && FairFate(f, s.ack);
      assert u.log.done[|s.log.done|] == t.log.done[|s.log.done|] == f;
    }
  }

  /** Main theorem on progress: from every reachable state, unless it is stopped, the
      USB thread alone is done with every accepted key within a bounded number of
      turns; a key not done with before is sent exactly when it needs no
      acknowledgement or its acknowledgement was received. */
  lemma NoKeyLeftBehind(actions: seq<Action>, t: System) returns (more: seq<Action>, u: System)
    requires Run(START, actions, t) && !t.usbStopped && !t.ackStopped && !t.usb.Ended?
    ensures Run(t, more, u) && |more| <= UsbWork(t) && UsbOnly(more)
    ensures u.log.accepted == t.log.accepted == Keys(u.log.done) && t.log.done <= u.log.done
    ensures forall i :: |t.log.done| <= i < |u.log.done| ==>
              (u.log.done[i].Sent? <==> u.log.done[i].key.ackToWait <= t.ack)
  {
    hide Run, UsbWork, Inv;
    Reachable(actions, t);
    RunKeepsUsbWake(START, actions, t);
    more, u := UsbSettles(t);
    assert Queued(u.events) == [];
    forall i | |t.log.done| <= i < |u.log.done|
      ensures u.log.done[i].Sent? <==> u.log.done[i].key.ackToWait <= t.ack
    {
      assert FairFate(u.log.done[i], t.ack);
    }
  }
}
