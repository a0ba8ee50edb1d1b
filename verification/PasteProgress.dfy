/** Whether the acknowledgement that the USB thread waits for arrives. The device's
    outbox is bounded, so an acknowledgement may be dropped; the wait then times out,
    unless a later request is acknowledged. */
module PasteProgress {
  import Controller
  import opened PasteProtocol

  // ----- The control thread keeps going -----

  lemma ExecKeepsWake(s: System, a: Action)
    requires Controller.WakeInv(s.ctl) && Enabled(s, a)
    ensures Controller.WakeInv(Exec(s, a).ctl)
  {
    hide DeviceStep, WaitOutcome, PushUsb, Offer, SignalUsb;
  }

  lemma {:induction false} RunKeepsWake(s: System, actions: seq<Action>, t: System)
    requires Controller.WakeInv(s.ctl) && Run(s, actions, t)
    ensures Controller.WakeInv(t.ctl)
    decreases |actions|
  {
    hide Controller.WakeInv, Exec;
    if actions != [] {
      ExecKeepsWake(s, actions[0]);
      RunKeepsWake(Exec(s, actions[0]), actions[1..], t);
    }
  }

  // ----- The condition -----

  /** An acknowledgement of request `n` or a later one was received or is on its way,
      or some request is not handled yet. */
  ghost predicate OnItsWay(s: System, n: nat) {
    || s.ack >= n
    || (exists i :: 0 <= i < |Coming(s.w)| && Coming(s.w)[i] >= n)
    || |s.w.handled| + 1 < s.nextSequence
  }

  lemma SameWay(s: System, t: System, n: nat)
    requires t.ack == s.ack && Coming(t.w) == Coming(s.w)
    requires t.w.handled == s.w.handled && t.nextSequence == s.nextSequence
    ensures OnItsWay(t, n) <==> OnItsWay(s, n)
  {
  }

  /** The receiver turns an acknowledgement on its way into a received one. */
  lemma ReceiverKeepsWay(s: System, n: nat)
    requires Inv(s) && s.w.toHost != []
    ensures OnItsWay(ReceiverStep(s), n) <==> OnItsWay(s, n)
  {
    hide OrderInv, Coming;
    ReceiverKeepsInv(s);
    ReceiverComing(s.w);
    var t := ReceiverStep(s);
    var all, rest := Coming(s.w), Coming(t.w);
    assert t.w == s.w.(toHost := s.w.toHost[1..]);
    if s.w.toHost[0].Ack? {
      assert all == [t.ack] + rest && all[0] == t.ack;
      forall i | 0 <= i < |rest| ensures rest[i] == all[i + 1] {
      }
    } else {
      assert all == rest;
    }
  }

  /** A request handled while the outbox has room is acknowledged; dropped or not,
      nothing else changes. */
  lemma DeviceKeepsWay(s: System, held: bool, n: nat)
    requires Inv(s) && s.w.toDevice != []
    ensures var t := s.(w := DeviceStep(s.w, held));
            && (OnItsWay(t, n) ==> OnItsWay(s, n))
            && (OnItsWay(s, n) && n < s.nextSequence && s.w.outbox == [] ==> OnItsWay(t, n))
  {
    hide Coming;
    var m := s.w.toDevice[0];
    var t := s.(w := DeviceStep(s.w, held));
    assert Sequences(s.w.toDevice) == SequenceOf(m) + Sequences(s.w.toDevice[1..]);
    if SequenceOf(m) == [] {
      SameComing(s.w, t.w);
      SameWay(s, t, n);
    } else {
      assert m.sequence == Sequences(s.w.toDevice)[0] == |s.w.handled| + 1;
      OfferComing(s.w, Ack(m.sequence));
      SameComing(s.w.(outbox := t.w.outbox), t.w);
      if s.w.outbox == [] {
        assert Coming(t.w) == Coming(s.w) + [m.sequence];
        forall i | 0 <= i < |Coming(s.w)| ensures Coming(t.w)[i] == Coming(s.w)[i] {
        }
        assert Coming(t.w)[|Coming(s.w)|] == m.sequence;
      }
    }
  }

  lemma SameComing(w: Wire, w': Wire)
    requires w'.outbox == w.outbox && w'.toHost == w.toHost
    ensures Coming(w') == Coming(w)
  {
  }

  // ----- The channel alone -----

  /** The control thread on a working socket, the device, its sender and the
      receiver. */
  predicate ChannelAction(a: Action) {
    || a.ControllerWake? || a.ControllerCheck? || a == ControllerSent(true)
    || a.DeviceHandles? || a.DeviceSends? || a.ReceiverHandles?
  }

  predicate ChannelIdle(s: System) {
    Controller.Settled(s.ctl.consumer) && s.w.toDevice == [] && s.w.outbox == [] && s.w.toHost == []
  }

  /** What is furthest on its way moves first. */
  function ChannelNext(s: System): Action
    requires !ChannelIdle(s)
  {
    if s.w.toHost != [] then ReceiverHandles
    else if s.w.outbox != [] then DeviceSends
    else if s.w.toDevice != [] then DeviceHandles(true)
    else if s.ctl.consumer.Waiting? then ControllerWake
    else if s.ctl.consumer.Running? then ControllerCheck
    else ControllerSent(true)
  }

  /** An upper bound of the steps of the channel. */
  function ChannelWork(s: System): nat {
    8 * Controller.Work(s.ctl) + 4 * |s.w.toDevice| + 2 * |s.w.outbox| + |s.w.toHost|
  }

  lemma ChannelProgress(s: System)
    requires !ChannelIdle(s) && !s.crashed && !s.ctl.stopped && !s.ctl.consumer.Done?
    ensures var a := ChannelNext(s);
            && Enabled(s, a) && ChannelAction(a)
            && var t := Exec(s, a);
               && ChannelWork(t) < ChannelWork(s)
               && t == s.(ctl := t.ctl, w := t.w, ack := t.ack, crashed := t.crashed)
               && !t.ctl.stopped && !t.ctl.consumer.Done?
  {
    var a := ChannelNext(s);
    if a.ReceiverHandles? || a.DeviceSends? || a.DeviceHandles? {
      hide Controller.Check, Controller.Work;
    } else {
      Controller.TurnWorks(Controller.State(s.ctl, Controller.History([], [], [], [], [])));
      hide Controller.Work, Controller.Check, DeviceStep, ReceiverStep;
      assert s.w.toDevice == [];
    }
  }

  lemma ChannelKeepsWay(s: System, n: nat)
    requires Inv(s) && !ChannelIdle(s) && !s.ctl.stopped && !s.ctl.consumer.Done? && n < s.nextSequence
    requires OnItsWay(s, n)
    ensures Enabled(s, ChannelNext(s)) && OnItsWay(Exec(s, ChannelNext(s)), n)
  {
    assert !s.crashed;
    hide Inv, OnItsWay, ReceiverStep, DeviceStep, Coming;
    ChannelProgress(s);
    var a := ChannelNext(s);
    var t := Exec(s, a);
    if a.ReceiverHandles? {
      ReceiverKeepsWay(s, n);
    } else if a.DeviceSends? {
      SendKeepsComing(s.w);
      SameWay(s, t, n);
    } else if a.DeviceHandles? {
      DeviceKeepsWay(s, true, n);
    } else {
      SameComing(s.w, t.w);
      SameWay(s, t, n);
    }
  }

  ghost predicate ChannelOnly(more: seq<Action>) {
    forall i :: 0 <= i < |more| ==> ChannelAction(more[i])
  }

  /** The channel alone comes to rest. */
  lemma {:induction false} ChannelRests(s: System, n: nat) returns (more: seq<Action>, u: System)
    requires Inv(s) && Controller.WakeInv(s.ctl) && !s.ctl.stopped && !s.ctl.consumer.Done?
    requires n < s.nextSequence && OnItsWay(s, n)
    ensures Run(s, more, u) && |more| <= ChannelWork(s) && ChannelOnly(more)
    ensures ChannelIdle(u) && Inv(u) && Controller.WakeInv(u.ctl) && !u.ctl.consumer.Done?
    ensures u.usb == s.usb && OnItsWay(u, n)
    decreases ChannelWork(s)
  {
    hide Controller.WakeInv, Exec, Controller.Work, ChannelNext, ChannelIdle, OrderInv, AckInv, OnItsWay, Enabled;
    if ChannelIdle(s) {
      return [], s;
    }
    var a := ChannelNext(s);
    ChannelProgress(s);
    ChannelKeepsWay(s, n);
    ExecKeepsInv(s, a);
    ExecKeepsWake(s, a);
    var rest;
    rest, u := ChannelRests(Exec(s, a), n);
    more := [a] + rest;
    assert more[1..] == rest;
  }

  /** At rest, everything on its way arrived. */
  lemma RestIsArrival(u: System, n: nat)
    requires Inv(u) && Controller.WakeInv(u.ctl) && ChannelIdle(u) && !u.ctl.consumer.Done? && OnItsWay(u, n)
    ensures u.ack >= n
  {
    assert Pending(u.ctl) == [] && Sequences(u.w.toDevice) == [] && Coming(u.w) == [];
  }

  /** The acknowledgement arrives when it is on its way: from every reachable state in
      which the USB thread waits and the control thread goes on, within a bounded
      number of steps of the channel alone. */
  lemma AckArrives(actions: seq<Action>, t: System) returns (more: seq<Action>, u: System)
    requires Run(START, actions, t) && t.usb.Acking? && !t.ctl.stopped && !t.ctl.consumer.Done?
    requires OnItsWay(t, t.usb.key.ackToWait)
    ensures Run(t, more, u) && |more| <= ChannelWork(t) && ChannelOnly(more)
    ensures u.usb == t.usb && u.ack >= t.usb.key.ackToWait
    ensures WaitOutcome(u.ack, false, t.usb.key.ackToWait, false).WaitOk?
  {
    hide Run, OrderInv, AckInv, ChannelWork, ChannelIdle, OnItsWay;
    RunKeepsInv(START, actions, t) by {
      StartInv();
    }
    RunKeepsWaits(START, actions, t);
    RunKeepsWake(START, actions, t);
    more, u := ChannelRests(t, t.usb.key.ackToWait);
    RestIsArrival(u, t.usb.key.ackToWait);
  }

  // ----- Otherwise it never does -----

  lemma StepStaysLost(s: System, a: Action, n: nat)
    requires Inv(s) && Enabled(s, a) && !a.CtrlV? && !OnItsWay(s, n)
    ensures !OnItsWay(Exec(s, a), n)
  {
    hide Inv, OnItsWay, ReceiverStep, DeviceStep, Coming;
    var t := Exec(s, a);
    if a.ReceiverHandles? {
      ReceiverKeepsWay(s, n);
    } else if a.DeviceHandles? {
      DeviceKeepsWay(s, a.held, n);
    } else if a.DeviceSends? {
      SendKeepsComing(s.w);
      SameWay(s, t, n);
    } else if a.DeviceTells? {
      OfferComing(s.w, OtherDeviceMsg);
      assert Coming(s.w) + [] == Coming(s.w);
      SameWay(s, t, n);
    } else {
      OthersKeepAnswers(s, a);
      SameComing(s.w, t.w);
      SameWay(s, t, n);
    }
  }

  /** Other steps touch neither the answers nor the numbering. */
  lemma OthersKeepAnswers(s: System, a: Action)
    requires Enabled(s, a) && !a.CtrlV? && !a.ReceiverHandles? && !a.DeviceHandles? && !a.DeviceSends? && !a.DeviceTells?
    ensures var t := Exec(s, a);
            && t.ack == s.ack && t.nextSequence == s.nextSequence
            && t.w == s.w.(toDevice := t.w.toDevice)
  {
    hide Controller.Push, Controller.Check, Controller.Resize, Controller.Stop, WaitOutcome, PushUsb, SignalUsb;
  }

  ghost predicate NoRequest(more: seq<Action>) {
    forall i :: 0 <= i < |more| ==> !more[i].CtrlV?
  }

  lemma {:induction false} StaysLost(s: System, more: seq<Action>, u: System, n: nat)
    requires Inv(s) && !OnItsWay(s, n) && Run(s, more, u)
    requires NoRequest(more)
    ensures u.ack < n
    decreases |more|
  {
    hide Inv, Exec, Enabled;
    if more != [] {
      hide OnItsWay;
      StepStaysLost(s, more[0], n);
      ExecKeepsInv(s, more[0]);
      StaysLost(Exec(s, more[0]), more[1..], u, n);
    }
  }

  /** Main theorem on waiting: while the control thread goes on, steps of the channel
      bring the acknowledgement that the USB thread waits for if and only if it, or
      a later one, was received or is on its way, or some request is not handled
      yet. Otherwise nothing but a new request can bring one, and the key is discarded
      when the wait times out. */
  lemma AckExactly(actions: seq<Action>, t: System)
    requires Run(START, actions, t) && t.usb.Acking? && !t.ctl.stopped && !t.ctl.consumer.Done?
    ensures (exists more, u :: Run(t, more, u) && ChannelOnly(more) && u.ack >= t.usb.key.ackToWait)
            <==> OnItsWay(t, t.usb.key.ackToWait)
    ensures !OnItsWay(t, t.usb.key.ackToWait) ==>
              forall more: seq<Action>, u: System :: Run(t, more, u) && NoRequest(more) ==>
                u.ack < t.usb.key.ackToWait
  {
    hide Run, OnItsWay;
    var n := t.usb.key.ackToWait;
    if OnItsWay(t, n) {
      var more, u := AckArrives(actions, t);
      assert Run(t, more, u) && ChannelOnly(more);
    } else {
      hide Inv;
      RunKeepsInv(START, actions, t) by {
        StartInv();
      }
      forall more: seq<Action>, u: System | Run(t, more, u) && NoRequest(more)
        ensures u.ack < n
      {
        StaysLost(t, more, u, n);
      }
    }
  }

  // ----- Runs that show the exceptions -----

  /** The first Ctrl+v, waiting for the first request. */
  const KEY := Key(1, 7)

  lemma {:induction false} RunSnoc(s: System, actions: seq<Action>, m: System, a: Action)
    requires Run(s, actions, m) && Enabled(m, a)
    ensures Run(s, actions + [a], Exec(m, a))
    decreases |actions|
  {
    hide Enabled, Exec;
    var more := actions + [a];
    if actions == [] {
      assert more[0] == a && more[1..] == [];
      assert Run(Exec(s, a), [], Exec(s, a));
    } else {
      assert more[0] == actions[0] && more[1..] == actions[1..] + [a];
      RunSnoc(Exec(s, actions[0]), actions[1..], m, a);
    }
  }

  /** The device fills its outbox with other messages. */
  function Talkative(k: nat): System {
    START.(w := START.w.(outbox := seq(k, _ => OtherDeviceMsg)))
  }

  lemma {:induction false} FillOutbox(k: nat) returns (actions: seq<Action>)
    requires k <= OUTBOX_LIMIT
    ensures Run(START, actions, Talkative(k))
  {
    if k == 0 {
      assert Talkative(0) == START;
      return [];
    }
    actions := FillOutbox(k - 1);
    RunSnoc(START, actions, Talkative(k - 1), DeviceTells);
    assert seq(k - 1, _ => OtherDeviceMsg) + [OtherDeviceMsg] == seq(k, _ => OtherDeviceMsg);
    actions := actions + [DeviceTells];
  }

  /** From a state without any request: Ctrl+v, up to the moment the device handles
      the request and the USB thread waits for its acknowledgement. */
  lemma OnePaste(before: seq<Action>, s: System, held: bool) returns (actions: seq<Action>, t: System)
    requires Run(START, before, s) && s == START.(w := s.w)
    requires s.w.toDevice == [] && s.w.handled == [] && s.w.held == []
    ensures Run(START, actions, t)
    ensures t.usb == Acking(KEY) && !t.ctl.stopped && t.ctl.consumer == Controller.Running && t.ack == 0
    ensures !t.crashed && !t.ackStopped
    ensures t.nextSequence == 2 && t.w == Wire([], [1], [held], Offer(s.w.outbox, Ack(1)), s.w.toHost)
  {
    hide Run;
    var m := Controller.SetClipboard(1, false);
    var s1 := s.(ctl := s.ctl.(queue := [m]), ui := UiKey(1), nextSequence := 2);
    assert [] + [m] == [m];
    RunSnoc(START, before, s, CtrlV);
    actions := before + [CtrlV];
    var s2 := s1.(ui := UiIdle, events := [Input(KEY)], log := UsbLog([KEY], []));
    assert [] + [KEY] == [KEY];
    assert [] + [Input(KEY)] == [Input(KEY)];
    RunSnoc(START, actions, s1, CtrlVKey(true, 7));
    actions := actions + [CtrlVKey(true, 7)];
    var s3 := s2.(events := [], usb := Acking(KEY));
    assert [Input(KEY)][1..] == [];
    RunSnoc(START, actions, s2, UsbNext);
    actions := actions + [UsbNext];
    actions, t := OneRequest(actions, s3, m, held);
  }

  lemma OneRequest(before: seq<Action>, s: System, m: Controller.Msg, held: bool)
      returns (actions: seq<Action>, t: System)
    requires Run(START, before, s) && m == Controller.SetClipboard(1, false)
    requires s.ctl == Controller.Core([m], 0, 0, false, Controller.Running)
    requires s.w.toDevice == [] && s.w.handled == [] && s.w.held == []
    ensures Run(START, actions, t)
    ensures t == s.(ctl := s.ctl.(queue := []), w := Wire([], [1], [held], Offer(s.w.outbox, Ack(1)), s.w.toHost))
  {
    hide Run;
    var s1 := s.(ctl := s.ctl.(queue := [], consumer := Controller.Sending(m)));
    assert [m][1..] == [];
    RunSnoc(START, before, s, ControllerCheck);
    actions := before + [ControllerCheck];
    var s2 := s1.(ctl := s.ctl.(queue := []), w := s.w.(toDevice := [m]));
    assert [] + [m] == [m];
    RunSnoc(START, actions, s1, ControllerSent(true));
    actions := actions + [ControllerSent(true)];
    RunSnoc(START, actions, s2, DeviceHandles(held));
    actions := actions + [DeviceHandles(held)];
    t := s.(ctl := s.ctl.(queue := []), w := Wire([], [1], [held], Offer(s.w.outbox, Ack(1)), s.w.toHost));
    assert [] + [1] == [1] && [] + [held] == [held];
    assert Exec(s2, DeviceHandles(held)) == t;
  }

  /** The wait may be in vain: with sixteen other messages in the outbox, the device
      handles the request and its acknowledgement is dropped. */
  lemma AckMayBeLost() returns (actions: seq<Action>, t: System)
    ensures Run(START, actions, t) && t.usb == Acking(KEY) && !t.ctl.stopped && !t.ctl.consumer.Done?
    ensures t.w.handled == [1] && !OnItsWay(t, 1)
  {
    hide Run;
    actions := FillOutbox(16);
    actions, t := OnePaste(actions, Talkative(16), true);
    NoAcks(t.w.outbox);
    assert Coming(t.w) == [];
  }

  lemma {:induction false} NoAcks(ms: seq<DeviceMsg>)
    requires forall i :: 0 <= i < |ms| ==> ms[i].OtherDeviceMsg?
    ensures Acks(ms) == []
  {
    if ms != [] {
      NoAcks(ms[1..]);
    }
  }

  /** A key may be injected although the clipboard did not take the text: the device
      acknowledges all the same. */
  lemma KeyWithoutClipboard() returns (actions: seq<Action>, t: System)
    ensures Run(START, actions, t) && t.usb == Injecting(KEY)
    ensures |t.w.held| == |t.w.handled| && 1 in t.w.handled && 1 !in Applied(t.w)
  {
    hide Run;
    var s;
    RunNil();
    actions, s := OnePaste([], START, false);
    assert [] + [Ack(1)] == [Ack(1)];
    actions, t := Acknowledged(actions, s);
    NotApplied(t.w);
  }

  lemma NotApplied(w: Wire)
    requires w.handled == [1] && w.held == [false]
    ensures 1 !in Applied(w)
  {
  }

  /** The acknowledgement reaches the waiting USB thread. */
  lemma Acknowledged(before: seq<Action>, s: System) returns (actions: seq<Action>, t: System)
    requires Run(START, before, s) && s.usb == Acking(KEY) && s.ack == 0 && !s.crashed && !s.ackStopped
    requires s.w.outbox == [Ack(1)] && s.w.toHost == []
    ensures Run(START, actions, t)
    ensures t == s.(w := s.w.(outbox := []), ack := 1, usb := Injecting(KEY))
  {
    hide Run, Exec, Enabled;
    var s1 := s.(w := s.w.(outbox := [], toHost := [Ack(1)]));
    SendsAck(s);
    RunSnoc(START, before, s, DeviceSends);
    actions := before + [DeviceSends];
    var s2 := s.(w := s.w.(outbox := []), ack := 1);
    ReceivesAck(s1);
    RunSnoc(START, actions, s1, ReceiverHandles);
    actions := actions + [ReceiverHandles];
    t := s2.(usb := Injecting(KEY));
    PollsAck(s2);
    RunSnoc(START, actions, s2, UsbPoll(false));
    actions := actions + [UsbPoll(false)];
  }

  lemma SendsAck(s: System)
    requires s.w.outbox == [Ack(1)] && s.w.toHost == []
    ensures Enabled(s, DeviceSends) && Exec(s, DeviceSends) == s.(w := s.w.(outbox := [], toHost := [Ack(1)]))
  {
    assert [Ack(1)][1..] == [] && [] + [Ack(1)] == [Ack(1)];
  }

  lemma ReceivesAck(s: System)
    requires s.w.toHost == [Ack(1)] && s.ack == 0 && !s.crashed
    ensures Enabled(s, ReceiverHandles) && Exec(s, ReceiverHandles) == s.(w := s.w.(toHost := []), ack := 1)
  {
    assert [Ack(1)][1..] == [];
  }

  lemma PollsAck(s: System)
    requires s.usb == Acking(KEY) && s.ack == 1 && !s.ackStopped
    ensures Enabled(s, UsbPoll(false)) && Exec(s, UsbPoll(false)) == s.(usb := Injecting(KEY))
  {
  }

  lemma RunNil()
    ensures Run(START, [], START)
  {
  }
}
