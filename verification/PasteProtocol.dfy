/** Pasting with a USB keyboard. The clipboard travels over the control socket,
    the Ctrl+v key over USB; the key carries the sequence number of the clipboard
    request and waits for its acknowledgement. Every thread, the socket and the
    device take their own steps. */
module PasteProtocol {
  import opened Controller

  const SEQUENCE_INVALID := 0
  const EVENT_QUEUE_LIMIT := 60
  const OUTBOX_LIMIT := 16

  // ----- Acknowledgements -----

  datatype WaitResult = WaitOk | WaitInterrupted | WaitTimeout | KeepWaiting

  /** What a waiter for `target` does when it holds the mutex. */
  function WaitOutcome(ack: nat, stopped: bool, target: nat, timedOut: bool): WaitResult {
    if !stopped && ack < target && !timedOut then KeepWaiting
    else if stopped then WaitInterrupted
    else if ack >= target then WaitOk
    else WaitTimeout
  }

  class AckSync {
    var stopped: bool
    var ack: nat

    constructor ()
      ensures !stopped && ack == SEQUENCE_INVALID
    {
      stopped, ack := false, SEQUENCE_INVALID;
    }

    /** Requires what the code asserts: acknowledgements are monotonic. */
    method Acknowledge(sequence: nat)
      requires sequence >= ack
      modifies `ack
      ensures ack == sequence
    {
      ack := sequence;
    }

    /** One turn of the waiting loop. */
    method Poll(target: nat, timedOut: bool) returns (r: WaitResult)
      ensures r == WaitOutcome(ack, stopped, target, timedOut)
      ensures r.WaitOk? ==> ack >= target
    {
      if !stopped && ack < target && !timedOut {
        return KeepWaiting;
      }
      if stopped {
        r := WaitInterrupted;
      } else if ack >= target {
        r := WaitOk;
      } else {
        assert timedOut;
        r := WaitTimeout;
      }
    }

    method Interrupt()
      modifies `stopped
      ensures stopped
    {
      stopped := true;
    }
  }

  // ----- The whole system -----

  /** The user interface thread: idle, or between the clipboard request with the
      given sequence and the key event that waits for it. */
  datatype Ui = UiIdle | UiKey(sequence: nat)

  /** A key for the USB device, and the acknowledgement it has to wait for, if any. */
  datatype Key = Key(ackToWait: nat, id: nat)

  datatype UsbEvent = Input(key: Key) | Open(hid: nat) | Close(hid: nat)

  /** The USB thread: about to look for an event, blocked (and possibly signalled),
      waiting for an acknowledgement, about to send a key, or ended. */
  datatype Usb = Looking | Sleeping(signalled: bool) | Acking(key: Key) | Injecting(key: Key) | Ended

  /** What became of a key: sent, or discarded because its wait timed out or was
      interrupted. */
  datatype Fate = Sent(key: Key) | TimedOut(key: Key) | Interrupted(key: Key)

  /** The keys accepted into the queue, and what became of them (history only). */
  datatype UsbLog = UsbLog(accepted: seq<Key>, done: seq<Fate>)

  datatype DeviceMsg = Ack(sequence: nat) | OtherDeviceMsg

  /** What is on its way between the computer and the device, and what the device
      did: the clipboard requests it handled and, for each, whether its clipboard
      then held the text. Its answers leave through a bounded outbox. */
  datatype Wire = Wire(toDevice: seq<Msg>, handled: seq<nat>, held: seq<bool>,
                       outbox: seq<DeviceMsg>, toHost: seq<DeviceMsg>)

  datatype System = System(
    ctl: Core, nextSequence: nat, ui: Ui,
    w: Wire,
    ack: nat, ackStopped: bool, crashed: bool,
    events: seq<UsbEvent>, usbStopped: bool, usb: Usb, log: UsbLog)

  const START := System(INITIAL, 1, UiIdle, Wire([], [], [], [], []), SEQUENCE_INVALID, false, false,
                        [], false, Looking, UsbLog([], []))

  datatype Action =
    | CtrlV                      // request the clipboard synchronisation
    | CtrlVKey(supported: bool, id: nat) // then queue the key, if the keyboard has it
    | ControlMsg(m: Msg)         // any other control message
    | DisplaySize(width: nat, height: nat)
    | PlainUsb(e: UsbEvent)      // a USB event that waits for nothing
    | ControllerStop
    | ControllerWake
    | ControllerCheck
    | ControllerSent(ok: bool)
    | DeviceHandles(held: bool)  // the device handles the next control message
    | DeviceTells                // the device has something else to say
    | DeviceSends                // its sender thread takes a message from the outbox
    | ReceiverHandles
    | UsbWake                    // signalled or spurious
    | UsbNext
    | UsbPoll(timedOut: bool)
    | UsbInject
    | UsbStop
    | AckInterrupt

  predicate Enabled(s: System, a: Action) {
    match a
    case CtrlV => s.ui.UiIdle?
    case CtrlVKey(_, _) => s.ui.UiKey?
    case ControlMsg(m) => !m.ResizeDisplay? && (m.SetClipboard? ==> m.sequence == SEQUENCE_INVALID)
    case DisplaySize(w, h) => w != 0 && h != 0
    case PlainUsb(e) => e.Input? ==> e.key.ackToWait == SEQUENCE_INVALID
    case ControllerWake => s.ctl.consumer.Waiting?
    case ControllerCheck => s.ctl.consumer.Running?
    case ControllerSent(_) => s.ctl.consumer.Sending?
    case DeviceHandles(_) => s.w.toDevice != []
    case DeviceSends => s.w.outbox != []
    case UsbWake => s.usb.Sleeping?
    case ReceiverHandles => s.w.toHost != [] && !s.crashed
    case UsbNext => s.usb.Looking?
    case UsbPoll(_) => s.usb.Acking?
    case UsbInject => s.usb.Injecting?
    case _ => true
  }

  /** A key is queued only while there is room; opening and closing always are. */
  function PushUsb(events: seq<UsbEvent>, e: UsbEvent): seq<UsbEvent> {
    if !e.Input? || |events| < EVENT_QUEUE_LIMIT then events + [e] else events
  }

  function SignalUsb(usb: Usb): Usb {
    if usb.Sleeping? then Sleeping(true) else usb
  }

  /** Queueing an event wakes the USB thread up when the queue was empty. */
  function PushEvent(s: System, e: UsbEvent): System {
    s.(events := PushUsb(s.events, e), usb := if s.events == [] then SignalUsb(s.usb) else s.usb,
       log := if e.Input? && |s.events| < EVENT_QUEUE_LIMIT
              then s.log.(accepted := s.log.accepted + [e.key]) else s.log)
  }

  /** The outbox drops what does not fit. */
  function Offer(outbox: seq<DeviceMsg>, m: DeviceMsg): seq<DeviceMsg> {
    if |outbox| < OUTBOX_LIMIT then outbox + [m] else outbox
  }

  /** The device handles one control message and acknowledges it on request, whether
      or not its clipboard then holds the text. */
  function DeviceStep(w: Wire, held: bool): Wire
    requires w.toDevice != []
  {
    var m := w.toDevice[0];
    var w' := w.(toDevice := w.toDevice[1..]);
    if m.SetClipboard? && m.sequence != SEQUENCE_INVALID
    then w'.(handled := w.handled + [m.sequence], held := w.held + [held], outbox := Offer(w.outbox, Ack(m.sequence)))
    else w'
  }

  function ReceiverStep(s: System): System
    requires s.w.toHost != []
  {
    var m := s.w.toHost[0];
    var s' := s.(w := s.w.(toHost := s.w.toHost[1..]));
    if !m.Ack? then s'
    else if m.sequence < s.ack then s'.(crashed := true)
    else s'.(ack := m.sequence)
  }

  function UsbLook(s: System): System {
    if s.usbStopped then s.(usb := Ended)
    else if s.events == [] then s.(usb := Sleeping(false))
    else
      var e := s.events[0];
      var s' := s.(events := s.events[1..]);
      if !e.Input? then s'
      else if e.key.ackToWait != SEQUENCE_INVALID then s'.(usb := Acking(e.key))
      else s'.(usb := Injecting(e.key))
  }

  function Ends(s: System, f: Fate): System {
    s.(log := s.log.(done := s.log.done + [f]))
  }

  function Exec(s: System, a: Action): System
    requires Enabled(s, a)
  {
    match a
    case CtrlV =>
      var m := SetClipboard(s.nextSequence, false);
      if Accepts(s.ctl, m)
      then s.(ctl := Push(s.ctl, m), ui := UiKey(s.nextSequence), nextSequence := s.nextSequence + 1)
      else s
    case CtrlVKey(supported, id) =>
      if supported then PushEvent(s, Input(Key(s.ui.sequence, id))).(ui := UiIdle) else s.(ui := UiIdle)
    case ControlMsg(m) => s.(ctl := Push(s.ctl, m))
    case DisplaySize(w, h) => s.(ctl := Resize(s.ctl, w, h))
    case PlainUsb(e) => PushEvent(s, e)
    case ControllerStop => s.(ctl := Stop(s.ctl))
    case ControllerWake => s.(ctl := s.ctl.(consumer := Running))
    case ControllerCheck => s.(ctl := Check(s.ctl))
    case ControllerSent(ok) =>
      if ok
      then s.(w := s.w.(toDevice := s.w.toDevice + [s.ctl.consumer.msg]), ctl := s.ctl.(consumer := Running))
      else s.(ctl := s.ctl.(consumer := Done))
    case DeviceHandles(held) => s.(w := DeviceStep(s.w, held))
    case DeviceTells => s.(w := s.w.(outbox := Offer(s.w.outbox, OtherDeviceMsg)))
    case DeviceSends => s.(w := s.w.(outbox := s.w.outbox[1..], toHost := s.w.toHost + [s.w.outbox[0]]))
    case ReceiverHandles => ReceiverStep(s)
    case UsbWake => s.(usb := Looking)
    case UsbNext => UsbLook(s)
    case UsbPoll(timedOut) =>
      var key := s.usb.key;
      (match WaitOutcome(s.ack, s.ackStopped, key.ackToWait, timedOut)
       case KeepWaiting => s
       case WaitOk => s.(usb := Injecting(key))
       case WaitInterrupted => Ends(s, Interrupted(key)).(usb := Ended)
       case WaitTimeout => Ends(s, TimedOut(key)).(usb := Looking))
    case UsbInject => Ends(s, Sent(s.usb.key)).(usb := Looking)
    case UsbStop => s.(usbStopped := true, usb := SignalUsb(s.usb))
    case AckInterrupt => s.(ackStopped := true)
  }

  ghost predicate Run(s: System, actions: seq<Action>, t: System)
    decreases |actions|
  {
    if actions == [] then s == t
    else Enabled(s, actions[0]) && Run(Exec(s, actions[0]), actions[1..], t)
  }

  // ----- The invariant -----

  /** The sequence numbers for which an acknowledgement was requested. */
  ghost function Sequences(ms: seq<Msg>): seq<nat> {
    if ms == [] then [] else SequenceOf(ms[0]) + Sequences(ms[1..])
  }

  ghost function SequenceOf(m: Msg): seq<nat> {
    if m.SetClipboard? && m.sequence != SEQUENCE_INVALID then [m.sequence] else []
  }

  ghost function Acks(ms: seq<DeviceMsg>): seq<nat> {
    if ms == [] then [] else AckOf(ms[0]) + Acks(ms[1..])
  }

  ghost function AckOf(m: DeviceMsg): seq<nat> {
    if m.Ack? then [m.sequence] else []
  }

  /** Consecutive numbers from `first` on. */
  ghost predicate Consecutive(s: seq<nat>, first: nat) {
    forall i :: 0 <= i < |s| ==> s[i] == first + i
  }

  lemma ConsecutiveConcat(a: seq<nat>, b: seq<nat>, first: nat)
    ensures Consecutive(a + b, first) <==> Consecutive(a, first) && Consecutive(b, first + |a|)
  {
    var ab := a + b;
    if Consecutive(ab, first) {
      forall i | 0 <= i < |a| ensures a[i] == first + i {
        assert ab[i] == a[i];
      }
      forall i | 0 <= i < |b| ensures b[i] == first + |a| + i {
        assert ab[|a| + i] == b[i];
      }
    }
  }

  ghost function Current(c: Core): seq<Msg> {
    if c.consumer.Sending? then [c.consumer.msg] else []
  }

  /** The requests not yet on the socket. */
  ghost function Pending(c: Core): seq<nat> {
    Sequences(Current(c)) + Sequences(c.queue)
  }

  /** Requests reach the device in order and none is skipped: handled requests,
      requests on the socket and pending ones are numbered consecutively. */
  ghost predicate OrderInv(w: Wire, c: Core, next: nat) {
    var n := |w.handled|;
    var k := |Sequences(w.toDevice)|;
    && next >= 1 + n + k
    && Consecutive(w.handled, 1)
    && Consecutive(Sequences(w.toDevice), 1 + n)
    && (!c.consumer.Done? ==>
          Consecutive(Pending(c), 1 + n + k) && next == 1 + n + k + |Pending(c)|)
  }

  /** The acknowledgements on their way, the next one to arrive first. */
  ghost function Coming(w: Wire): seq<nat> {
    Acks(w.toHost) + Acks(w.outbox)
  }

  /** Increasing numbers above `lo`, up to `hi`. */
  ghost predicate IncreasingIn(s: seq<nat>, lo: nat, hi: nat) {
    && (forall i :: 0 <= i < |s| ==> lo < s[i] <= hi)
    && (forall i, j :: 0 <= i < j < |s| ==> s[i] < s[j])
  }

  /** Acknowledgements arrive in increasing order, some may be missing, and only for
      handled requests. */
  ghost predicate AckInv(w: Wire, ack: nat) {
    && IncreasingIn(Coming(w), ack, |w.handled|) && ack <= |w.handled|
    && |w.held| == |w.handled| && |w.outbox| <= OUTBOX_LIMIT
  }

  ghost predicate Inv(s: System) {
    && OrderInv(s.w, s.ctl, s.nextSequence)
    && AckInv(s.w, s.ack)
    && !s.crashed
    && (s.usb.Injecting? ==> s.usb.key.ackToWait <= s.ack)
  }

  lemma SequencesFirst(ms: seq<Msg>)
    requires ms != []
    ensures Sequences(ms) == SequenceOf(ms[0]) + Sequences(ms[1..])
  {
  }

  lemma {:induction false} SequencesConcat(a: seq<Msg>, b: seq<Msg>)
    ensures Sequences(a + b) == Sequences(a) + Sequences(b)
  {
    if a == [] {
      assert a + b == b;
    } else {
      hide Sequences, SequenceOf;
      assert (a + b)[0] == a[0] && (a + b)[1..] == a[1..] + b;
      SequencesFirst(a + b);
      SequencesFirst(a);
      SequencesConcat(a[1..], b);
    }
  }

  lemma AcksFirst(ms: seq<DeviceMsg>)
    requires ms != []
    ensures Acks(ms) == AckOf(ms[0]) + Acks(ms[1..])
  {
  }

  lemma {:induction false} AcksConcat(a: seq<DeviceMsg>, b: seq<DeviceMsg>)
    ensures Acks(a + b) == Acks(a) + Acks(b)
  {
    if a == [] {
      assert a + b == b;
    } else {
      hide Acks, AckOf;
      assert (a + b)[0] == a[0] && (a + b)[1..] == a[1..] + b;
      AcksFirst(a + b);
      AcksFirst(a);
      AcksConcat(a[1..], b);
    }
  }

  lemma SequencesOne(m: Msg)
    ensures Sequences([m]) == SequenceOf(m)
  {
    assert [m][1..] == [];
  }

  lemma AcksOne(m: DeviceMsg)
    ensures Acks([m]) == AckOf(m)
  {
    assert [m][1..] == [];
  }

  /** Queueing a message adds its sequence number at the end. */
  lemma PushPending(c: Core, m: Msg)
    ensures Pending(Push(c, m)) == Pending(c) + (if Accepts(c, m) then SequenceOf(m) else [])
  {
    hide Sequences, SequenceOf;
    SequencesConcat(c.queue, [m]);
    SequencesOne(m);
    assert Current(Push(c, m)) == Current(c);
    assert Pending(c) + [] == Pending(c);
  }

  /** The consumer's critical section only moves the head of the queue. */
  lemma CheckPending(c: Core)
    requires c.consumer.Running?
    ensures Check(c).consumer.Done? || Pending(Check(c)) == Pending(c)
  {
    var c' := Check(c);
    if c'.consumer.Sending? {
      SequencesOne(c'.consumer.msg);
    }
  }

  /** Putting the current message on the socket. */
  lemma SentKeepsOrder(w: Wire, c: Core, next: nat)
    requires OrderInv(w, c, next) && c.consumer.Sending?
    ensures OrderInv(w.(toDevice := w.toDevice + [c.consumer.msg]), c.(consumer := Running), next)
    ensures OrderInv(w, c.(consumer := Done), next)
  {
    var m := c.consumer.msg;
    SequencesConcat(w.toDevice, [m]);
    SequencesOne(m);
    var first := 1 + |w.handled|;
    var onWire := Sequences(w.toDevice);
    assert Pending(c) == SequenceOf(m) + Sequences(c.queue);
    assert Pending(c.(consumer := Running)) == [] + Sequences(c.queue) == Sequences(c.queue);
    ConsecutiveConcat(SequenceOf(m), Sequences(c.queue), first + |onWire|);
    ConsecutiveConcat(onWire, SequenceOf(m), first);
  }

  /** Offering a message to the outbox adds its acknowledgement at the end, unless
      the outbox is full. */
  lemma OfferComing(w: Wire, m: DeviceMsg)
    ensures Coming(w.(outbox := Offer(w.outbox, m))) ==
            Coming(w) + (if |w.outbox| < OUTBOX_LIMIT then AckOf(m) else [])
  {
    AcksConcat(w.outbox, [m]);
    AcksOne(m);
  }

  lemma IncreasingAppend(s: seq<nat>, lo: nat, hi: nat)
    requires IncreasingIn(s, lo, hi) && lo <= hi
    ensures IncreasingIn(s, lo, hi + 1) && IncreasingIn(s + [hi + 1], lo, hi + 1)
  {
  }

  /** The device handling a message moves it from the socket to its state; its
      acknowledgement follows the earlier ones, if it is not dropped. */
  lemma DeviceKeepsOrder(w: Wire, c: Core, next: nat, ack: nat, held: bool)
    requires OrderInv(w, c, next) && AckInv(w, ack) && w.toDevice != []
    ensures OrderInv(DeviceStep(w, held), c, next) && AckInv(DeviceStep(w, held), ack)
  {
    hide Acks;
    var m := w.toDevice[0];
    var rest := Sequences(w.toDevice[1..]);
    assert Sequences(w.toDevice) == SequenceOf(m) + rest;
    ConsecutiveConcat(SequenceOf(m), rest, 1 + |w.handled|);
    ConsecutiveConcat(w.handled, SequenceOf(m), 1);
    if SequenceOf(m) != [] {
      assert m.sequence == SequenceOf(m)[0] == |w.handled| + 1;
      OfferComing(w, Ack(m.sequence));
      IncreasingAppend(Coming(w), ack, |w.handled|);
      assert Coming(w) + [] == Coming(w);
    }
  }

  /** The sender thread only moves a message. */
  lemma SendKeepsComing(w: Wire)
    requires w.outbox != []
    ensures Coming(w.(outbox := w.outbox[1..], toHost := w.toHost + [w.outbox[0]])) == Coming(w)
  {
    AcksConcat(w.toHost, [w.outbox[0]]);
    AcksOne(w.outbox[0]);
    var a, b, c := Acks(w.toHost), AckOf(w.outbox[0]), Acks(w.outbox[1..]);
    assert Acks(w.outbox) == b + c;
    assert a + (b + c) == (a + b) + c;
  }

  /** The receiver takes the first acknowledgement on its way, which is larger than
      all before. */
  lemma ReceiverComing(w: Wire)
    requires w.toHost != []
    ensures Coming(w) == AckOf(w.toHost[0]) + Coming(w.(toHost := w.toHost[1..]))
  {
    var a, b, c := AckOf(w.toHost[0]), Acks(w.toHost[1..]), Acks(w.outbox);
    assert Acks(w.toHost) == a + b;
    assert (a + b) + c == a + (b + c);
  }

  lemma ReceiverKeepsInv(s: System)
    requires Inv(s) && s.w.toHost != []
    ensures Inv(ReceiverStep(s))
    ensures ReceiverStep(s).ack >= s.ack && (s.w.toHost[0].Ack? ==> ReceiverStep(s).ack > s.ack)
  {
    hide OrderInv, Coming;
    var m := s.w.toHost[0];
    ReceiverComing(s.w);
    var w' := s.w.(toHost := s.w.toHost[1..]);
    OrderOf(s.w, w', s.ctl, s.nextSequence);
    if m.Ack? {
      assert Coming(s.w)[0] == m.sequence;
      forall i | 0 <= i < |Coming(w')| ensures Coming(w')[i] == Coming(s.w)[i + 1] {
      }
    } else {
      assert Coming(s.w) == Coming(w');
    }
  }

  /** The order of the requests does not depend on the answers. */
  lemma OrderOf(w: Wire, w': Wire, c: Core, next: nat)
    requires OrderInv(w, c, next) && w'.toDevice == w.toDevice && w'.handled == w.handled
    ensures OrderInv(w', c, next)
  {
  }

  /** A new clipboard request takes the next number. */
  lemma RequestKeepsOrder(w: Wire, c: Core, next: nat)
    requires OrderInv(w, c, next)
    requires Accepts(c, SetClipboard(next, false))
    ensures OrderInv(w, Push(c, SetClipboard(next, false)), next + 1)
  {
    var m := SetClipboard(next, false);
    PushPending(c, m);
    ConsecutiveConcat(Pending(c), [next], 1 + |w.handled| + |Sequences(w.toDevice)|);
    assert Push(c, m).consumer.Done? == c.consumer.Done?;
  }

  /** The order only depends on what is pending. */
  lemma SamePending(w: Wire, c: Core, c': Core, next: nat)
    requires OrderInv(w, c, next)
    requires c'.consumer.Done? || (!c.consumer.Done? && Pending(c') == Pending(c))
    ensures OrderInv(w, c', next)
  {
    hide Pending, Sequences;
  }

  /** The control thread and other users of its queue leave the requests alone. */
  lemma ControlPending(c: Core, m: Msg, width: nat, height: nat)
    requires SequenceOf(m) == []
    ensures Pending(Push(c, m)) == Pending(c) && Push(c, m).consumer.Done? == c.consumer.Done?
    ensures Pending(Resize(c, width, height)) == Pending(c) && Resize(c, width, height).consumer.Done? == c.consumer.Done?
    ensures Pending(Stop(c)) == Pending(c) && Stop(c).consumer.Done? == c.consumer.Done?
    ensures c.consumer.Waiting? ==> Pending(c.(consumer := Running)) == Pending(c)
  {
    PushPending(c, m);
    hide Sequences;
    assert Pending(c) + [] == Pending(c);
    assert Current(Resize(c, width, height)) == Current(c) && Current(Stop(c)) == Current(c);
  }

  lemma ControlKeepsOrder(s: System, a: Action)
    requires Inv(s) && Enabled(s, a)
    requires a.ControlMsg? || a.DisplaySize? || a.ControllerStop? || a.ControllerWake? || a.ControllerCheck?
    ensures Inv(Exec(s, a))
  {
    hide OrderInv, AckInv, Pending, Push, Resize, Stop, Check;
    var t := Exec(s, a);
    assert t == s.(ctl := t.ctl);
    if a.ControlMsg? {
      ControlPending(s.ctl, a.m, 0, 0);
    } else if a.ControllerCheck? {
      CheckPending(s.ctl);
    } else {
      ControlPending(s.ctl, Other(0), if a.DisplaySize? then a.width else 0, if a.DisplaySize? then a.height else 0);
    }
    SamePending(s.w, s.ctl, t.ctl, s.nextSequence);
  }

  lemma ExecKeepsInv(s: System, a: Action)
    requires Inv(s) && Enabled(s, a)
    ensures Inv(Exec(s, a)) && Exec(s, a).ack >= s.ack
  {
    if a.CtrlV? {
      if Accepts(s.ctl, SetClipboard(s.nextSequence, false)) {
        RequestKeepsOrder(s.w, s.ctl, s.nextSequence);
      }
    } else if a.ControlMsg? || a.DisplaySize? || a.ControllerStop? || a.ControllerWake? || a.ControllerCheck? {
      ControlKeepsOrder(s, a);
    } else if a.ControllerSent? || a.DeviceHandles? || a.DeviceTells? || a.DeviceSends? {
      WireKeepsInv(s, a);
    } else if a.ReceiverHandles? {
      ReceiverKeepsInv(s);
    } else {
      LocalKeepsInv(s, a);
    }
  }

  /** Steps of the socket and of the device. */
  lemma WireKeepsInv(s: System, a: Action)
    requires Inv(s) && Enabled(s, a) && (a.ControllerSent? || a.DeviceHandles? || a.DeviceTells? || a.DeviceSends?)
    ensures Inv(Exec(s, a))
  {
    hide OrderInv, Coming, IncreasingIn, DeviceStep;
    var t := Exec(s, a);
    if a.ControllerSent? {
      SentKeepsOrder(s.w, s.ctl, s.nextSequence);
      SameAnswers(s.w, t.w, s.ack);
    } else if a.DeviceHandles? {
      DeviceKeepsOrder(s.w, s.ctl, s.nextSequence, s.ack, a.held);
    } else {
      OrderOf(s.w, t.w, s.ctl, s.nextSequence);
      if a.DeviceTells? {
        OfferComing(s.w, OtherDeviceMsg);
        assert Coming(s.w) + [] == Coming(s.w);
      } else {
        SendKeepsComing(s.w);
      }
    }
  }

  lemma SameAnswers(w: Wire, w': Wire, ack: nat)
    requires AckInv(w, ack) && w' == w.(toDevice := w'.toDevice)
    ensures AckInv(w', ack)
  {
  }

  /** Steps of the keyboard and USB threads touch nothing else. */
  lemma LocalKeepsInv(s: System, a: Action)
    requires Inv(s) && Enabled(s, a)
    requires a.CtrlVKey? || a.PlainUsb? || a.UsbWake? || a.UsbNext? || a.UsbPoll? || a.UsbInject? || a.UsbStop? || a.AckInterrupt?
    ensures Inv(Exec(s, a))
  {
    var t := Exec(s, a);
    assert t.w == s.w && t.ctl == s.ctl && t.ack == s.ack && t.nextSequence == s.nextSequence;
  }

  lemma {:induction false} RunKeepsInv(s: System, actions: seq<Action>, t: System)
    requires Inv(s) && Run(s, actions, t)
    ensures Inv(t) && t.ack >= s.ack
    decreases |actions|
  {
    hide Inv, Exec;
    if actions != [] {
      ExecKeepsInv(s, actions[0]);
      RunKeepsInv(Exec(s, actions[0]), actions[1..], t);
    }
  }

  // ----- What holds in every reachable state -----

  /** The requests after which the clipboard of the device held the text. */
  ghost function Applied(w: Wire): set<nat>
    requires |w.held| == |w.handled|
  {
    set i | 0 <= i < |w.handled| && w.held[i] :: w.handled[i]
  }

  /** Main theorem: whenever the USB thread injects a key that carries a sequence
      number, the device already handled exactly that clipboard request, and it
      applied it exactly when its clipboard took the text; the device handled the
      requests in order and without gaps; and no acknowledgement is smaller than a
      previous one. */
  lemma PasteSafety(actions: seq<Action>, t: System)
    requires Run(START, actions, t)
    ensures |t.w.held| == |t.w.handled|
    ensures t.usb.Injecting? && t.usb.key.ackToWait != SEQUENCE_INVALID ==>
              var n := t.usb.key.ackToWait;
              && n in t.w.handled && 1 <= n <= |t.w.held|
              && (n in Applied(t.w) <==> t.w.held[n - 1])
    ensures forall i :: 0 <= i < |t.w.handled| ==> t.w.handled[i] == i + 1
    ensures t.ack <= |t.w.handled| < t.nextSequence
    ensures !t.crashed
  {
    hide Run, Sequences, Acks, Pending;
    RunKeepsInv(START, actions, t) by {
      StartInv();
    }
    if t.usb.Injecting? && t.usb.key.ackToWait != SEQUENCE_INVALID {
      assert t.w.handled[t.usb.key.ackToWait - 1] == t.usb.key.ackToWait;
    }
  }

  /** On a device whose clipboard takes every text, no key is injected before its
      clipboard request was applied. */
  lemma PasteAfterClipboard(actions: seq<Action>, t: System)
    requires Run(START, actions, t) && t.usb.Injecting? && t.usb.key.ackToWait != SEQUENCE_INVALID
    requires forall i :: 0 <= i < |t.w.held| ==> t.w.held[i]
    ensures |t.w.held| == |t.w.handled| && t.usb.key.ackToWait in Applied(t.w)
  {
    PasteSafety(actions, t);
  }

  /** Acknowledgements stay monotonic between any two states of a run. */
  lemma AcksMonotonic(first: seq<Action>, s: System, more: seq<Action>, t: System)
    requires Run(START, first, s) && Run(s, more, t)
    ensures s.ack <= t.ack
  {
    RunKeepsInv(START, first, s);
    RunKeepsInv(s, more, t);
  }

  // ----- What the USB thread waits for -----

  /** A key waits for the request made just before it, and every wait is for a
      request that was made. */
  ghost predicate WaitsInv(s: System) {
    && (s.ui.UiKey? ==> 1 <= s.ui.sequence == s.nextSequence - 1)
    && (s.usb.Acking? ==> 1 <= s.usb.key.ackToWait < s.nextSequence)
    && (forall i :: 0 <= i < |s.events| && s.events[i].Input? ==> s.events[i].key.ackToWait < s.nextSequence)
    && s.nextSequence >= 1
  }

  lemma ExecKeepsWaits(s: System, a: Action)
    requires WaitsInv(s) && Enabled(s, a)
    ensures WaitsInv(Exec(s, a))
  {
    hide Push, Check, Resize, Stop, Accepts, WaitOutcome, DeviceStep, Offer;
    if a.CtrlVKey? {
      PushKeepsWaits(s, Input(Key(s.ui.sequence, a.id)));
      hide PushEvent, UsbLook;
    } else if a.PlainUsb? {
      PushKeepsWaits(s, a.e);
      hide PushEvent, UsbLook;
    } else if a.UsbNext? {
      LookKeepsWaits(s);
      hide PushEvent, UsbLook;
    } else {
      hide PushEvent, UsbLook;
    }
  }

  lemma LookKeepsWaits(s: System)
    requires WaitsInv(s) && s.usb.Looking?
    ensures WaitsInv(UsbLook(s))
  {
  }

  lemma PushKeepsWaits(s: System, e: UsbEvent)
    requires WaitsInv(s) && (e.Input? ==> e.key.ackToWait < s.nextSequence)
    ensures WaitsInv(PushEvent(s, e)) && PushEvent(s, e).nextSequence == s.nextSequence
  {
  }

  lemma {:induction false} RunKeepsWaits(s: System, actions: seq<Action>, t: System)
    requires WaitsInv(s) && Run(s, actions, t)
    ensures WaitsInv(t)
    decreases |actions|
  {
    hide WaitsInv, Exec;
    if actions != [] {
      ExecKeepsWaits(s, actions[0]);
      RunKeepsWaits(Exec(s, actions[0]), actions[1..], t);
    }
  }

  /** While the control channel works, the USB thread never waits for a request
      that got lost: it was handled, is on the socket, or is still pending; and
      the key about to be queued carries the newest request. */
  lemma WaitIsServed(actions: seq<Action>, t: System)
    requires Run(START, actions, t)
    ensures t.usb.Acking? && !t.ctl.consumer.Done? ==>
              var n := t.usb.key.ackToWait;
              n in t.w.handled || n in Sequences(t.w.toDevice) || n in Pending(t.ctl)
    ensures t.ui.UiKey? ==> t.ui.sequence + 1 == t.nextSequence
  {
    hide Run, Sequences, Acks, Pending;
    RunKeepsInv(START, actions, t) by {
      StartInv();
    }
    RunKeepsWaits(START, actions, t);
    if t.usb.Acking? && !t.ctl.consumer.Done? {
      var n, a, k := t.usb.key.ackToWait, |t.w.handled|, |Sequences(t.w.toDevice)|;
      if n <= a {
        assert t.w.handled[n - 1] == n;
      } else if n <= a + k {
        assert Sequences(t.w.toDevice)[n - a - 1] == n;
      } else {
        assert Pending(t.ctl)[n - a - k - 1] == n;
      }
    }
  }

  lemma StartInv()
    ensures Inv(START)
  {
  }

  // ----- The USB thread is woken up -----

  ghost predicate UsbWakeInv(s: System) {
    s.usb == Sleeping(false) ==> s.events == [] && !s.usbStopped
  }

  lemma ExecKeepsUsbWake(s: System, a: Action)
    requires UsbWakeInv(s) && Enabled(s, a)
    ensures UsbWakeInv(Exec(s, a))
  {
    hide Push, Check, Resize, Stop, Accepts, WaitOutcome, DeviceStep, Offer;
  }

  lemma {:induction false} RunKeepsUsbWake(s: System, actions: seq<Action>, t: System)
    requires UsbWakeInv(s) && Run(s, actions, t)
    ensures UsbWakeInv(t)
    decreases |actions|
  {
    hide UsbWakeInv, Exec;
    if actions != [] {
      ExecKeepsUsbWake(s, actions[0]);
      RunKeepsUsbWake(Exec(s, actions[0]), actions[1..], t);
    }
  }

  /** No wakeup of the USB thread is lost: blocked and not signalled, it has nothing
      to do. */
  lemma UsbNeverStuck(actions: seq<Action>, t: System)
    requires Run(START, actions, t)
    ensures t.usb == Sleeping(false) ==> t.events == [] && !t.usbStopped
  {
    hide Run;
    RunKeepsUsbWake(START, actions, t);
  }
}
