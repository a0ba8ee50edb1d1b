/** The USB accessory (AOA) thread: its event queue, and the list of HID devices it
    must unregister before it ends. */
module Aoa {
  import opened PasteProtocol

  // ----- The list of open devices -----

  /** The outcomes of the USB requests made for one event: opening registers the
      device and sends its report descriptor, and unregisters it again when that
      fails; closing unregisters it. */
  datatype Replies = Replies(register: bool, desc: bool, unregister: bool)

  /** The thread's list, the ids registered on the device, and those of them that a
      failed rollback left behind. As long as `regular` holds, every successful
      request made sense: only unregistered ids were registered and vice versa. */
  datatype Devices = Devices(open: seq<nat>, registered: set<nat>, leaked: set<nat>, regular: bool)

  const NO_DEVICES := Devices([], {}, {}, true)

  /** The list without the first occurrence of an id. */
  ghost function Without(open: seq<nat>, id: nat): seq<nat> {
    if open == [] then []
    else if open[0] == id then open[1..]
    else [open[0]] + Without(open[1..], id)
  }

  ghost function Step(d: Devices, e: UsbEvent, r: Replies): Devices {
    match e
    case Input(_) => d
    case Open(id) =>
      if !r.register then d
      else
        var d' := d.(regular := d.regular && id !in d.registered);
        if r.desc then d'.(open := d.open + [id], registered := d.registered + {id}, leaked := d.leaked - {id})
        else if r.unregister then d'.(registered := d.registered - {id}, leaked := d.leaked - {id})
        else d'.(registered := d.registered + {id}, leaked := d.leaked + {id})
    case Close(id) =>
      if !r.unregister then d
      else Devices(Without(d.open, id), d.registered - {id}, d.leaked - {id}, d.regular && id in d.registered)
  }

  ghost function Steps(es: seq<(UsbEvent, Replies)>): Devices {
    if es == [] then NO_DEVICES
    else Step(Steps(es[..|es| - 1]), es[|es| - 1].0, es[|es| - 1].1)
  }

  ghost predicate Distinct(open: seq<nat>) {
    forall i, j :: 0 <= i < j < |open| ==> open[i] != open[j]
  }

  /** Every registered device is listed or was left behind; and as long as all is
      regular, the list names exactly the others, once each. */
  ghost predicate Known(d: Devices) {
    && d.leaked <= d.registered
    && (forall id :: id in d.registered ==> id in d.open || id in d.leaked)
    && (d.regular ==> Distinct(d.open) && forall id :: id in d.open ==> id in d.registered && id !in d.leaked)
  }

  lemma {:induction false} WithoutKeeps(open: seq<nat>, id: nat)
    ensures forall x :: x in Without(open, id) ==> x in open
    ensures forall x :: x in open && x != id ==> x in Without(open, id)
    ensures Distinct(open) ==> id !in Without(open, id) && Distinct(Without(open, id))
  {
    if open != [] && open[0] != id {
      var rest := open[1..];
      WithoutKeeps(rest, id);
      if Distinct(open) {
        assert Distinct(rest);
        assert open[0] !in rest;
      }
    }
  }

  lemma StepKeepsKnown(d: Devices, e: UsbEvent, r: Replies)
    requires Known(d)
    ensures Known(Step(d, e, r))
  {
    hide Without;
    if e.Close? {
      WithoutKeeps(d.open, e.hid);
    }
  }

  /** A rollback that failed. */
  predicate RollbackFailed(e: UsbEvent, r: Replies, id: nat) {
    e == Open(id) && r == Replies(true, false, false)
  }

  /** A request that ends what a failed rollback left. */
  predicate Resolved(e: UsbEvent, r: Replies, id: nat) {
    || (e == Close(id) && r.unregister)
    || (e == Open(id) && r.register && (r.desc || r.unregister))
  }

  /** The rollback of a device failed, and nothing resolved it since. */
  ghost predicate LeftBehind(es: seq<(UsbEvent, Replies)>, id: nat) {
    exists k :: 0 <= k < |es| && RollbackFailed(es[k].0, es[k].1, id) && NeverSince(es, k, id)
  }

  ghost predicate NeverSince(es: seq<(UsbEvent, Replies)>, k: nat, id: nat) {
    forall j :: k < j < |es| ==> !Resolved(es[j].0, es[j].1, id)
  }

  /** The requests for an event leave the device registered, or unregistered. */
  predicate Gained(e: UsbEvent, r: Replies, id: nat) {
    e == Open(id) && r.register && (r.desc || !r.unregister)
  }

  predicate Lost(e: UsbEvent, r: Replies, id: nat) {
    (e == Close(id) && r.unregister) || (e == Open(id) && r.register && !r.desc && r.unregister)
  }

  /** What the events and replies say about a device: registered, and not
      unregistered since. */
  ghost predicate Registered(es: seq<(UsbEvent, Replies)>, id: nat) {
    exists k :: 0 <= k < |es| && Gained(es[k].0, es[k].1, id) && NotLostSince(es, k, id)
  }

  ghost predicate NotLostSince(es: seq<(UsbEvent, Replies)>, k: nat, id: nat) {
    forall j :: k < j < |es| ==> !Lost(es[j].0, es[j].1, id)
  }

  /** Every successful request made sense: only unregistered devices were registered
      and only registered ones unregistered. */
  ghost predicate Regular(es: seq<(UsbEvent, Replies)>) {
    forall k :: 0 <= k < |es| ==> Sensible(es[..k], es[k].0, es[k].1)
  }

  ghost predicate Sensible(before: seq<(UsbEvent, Replies)>, e: UsbEvent, r: Replies) {
    && (e.Open? && r.register ==> !Registered(before, e.hid))
    && (e.Close? && r.unregister ==> Registered(before, e.hid))
  }

  /** One event more. */
  lemma LeftBehindStep(es: seq<(UsbEvent, Replies)>, id: nat)
    requires es != []
    ensures var before, (e, r) := es[..|es| - 1], es[|es| - 1];
            LeftBehind(es, id) <==> RollbackFailed(e, r, id) || (LeftBehind(before, id) && !Resolved(e, r, id))
  {
    var n := |es| - 1;
    var before := es[..n];
    if RollbackFailed(es[n].0, es[n].1, id) {
      assert NeverSince(es, n, id);
    }
    if LeftBehind(es, id) && !RollbackFailed(es[n].0, es[n].1, id) {
      var k :| 0 <= k < |es| && RollbackFailed(es[k].0, es[k].1, id) && NeverSince(es, k, id);
      assert before[k] == es[k] && NeverSince(before, k, id);
    }
    if LeftBehind(before, id) && !Resolved(es[n].0, es[n].1, id) {
      var k :| 0 <= k < n && RollbackFailed(before[k].0, before[k].1, id) && NeverSince(before, k, id);
      forall j | k < j < |es| ensures !Resolved(es[j].0, es[j].1, id) {
        assert j < n ==> before[j] == es[j];
      }
      assert es[k] == before[k] && NeverSince(es, k, id);
    }
  }

  lemma RegisteredStep(es: seq<(UsbEvent, Replies)>, id: nat)
    requires es != []
    ensures var before, (e, r) := es[..|es| - 1], es[|es| - 1];
            Registered(es, id) <==> Gained(e, r, id) || (Registered(before, id) && !Lost(e, r, id))
  {
    var n := |es| - 1;
    var before := es[..n];
    if Gained(es[n].0, es[n].1, id) {
      assert NotLostSince(es, n, id);
    }
    if Registered(es, id) && !Gained(es[n].0, es[n].1, id) {
      var k :| 0 <= k < |es| && Gained(es[k].0, es[k].1, id) && NotLostSince(es, k, id);
      assert before[k] == es[k] && NotLostSince(before, k, id);
    }
    if Registered(before, id) && !Lost(es[n].0, es[n].1, id) {
      var k :| 0 <= k < n && Gained(before[k].0, before[k].1, id) && NotLostSince(before, k, id);
      forall j | k < j < |es| ensures !Lost(es[j].0, es[j].1, id) {
        assert j < n ==> before[j] == es[j];
      }
      assert es[k] == before[k] && NotLostSince(es, k, id);
    }
  }

  lemma RegularStep(es: seq<(UsbEvent, Replies)>)
    requires es != []
    ensures var before, (e, r) := es[..|es| - 1], es[|es| - 1];
            Regular(es) <==> Regular(before) && Sensible(before, e, r)
  {
    hide Sensible;
    var n := |es| - 1;
    var before := es[..n];
    if Regular(es) {
      forall k | 0 <= k < n ensures Sensible(before[..k], before[k].0, before[k].1) {
        assert before[..k] == es[..k] && before[k] == es[k];
      }
    }
    if Regular(before) && Sensible(before, es[n].0, es[n].1) {
      forall k | 0 <= k < |es| ensures Sensible(es[..k], es[k].0, es[k].1) {
        if k < n {
          assert before[..k] == es[..k] && before[k] == es[k];
        }
      }
    }
  }

  /** The device's state, and what was left behind, can be told from the events and
      replies. */
  lemma {:induction false} StepsExactly(es: seq<(UsbEvent, Replies)>)
    ensures forall id :: id in Steps(es).registered <==> Registered(es, id)
    ensures forall id :: id in Steps(es).leaked <==> LeftBehind(es, id)
    ensures Steps(es).regular <==> Regular(es)
  {
    if es != [] {
      hide Registered, LeftBehind, Regular, Without;
      StepsExactly(es[..|es| - 1]);
      forall id ensures id in Steps(es).registered <==> Registered(es, id) {
        RegisteredStep(es, id);
      }
      forall id ensures id in Steps(es).leaked <==> LeftBehind(es, id) {
        LeftBehindStep(es, id);
      }
      RegularStep(es);
    }
  }

  lemma {:induction false} StepsKnown(es: seq<(UsbEvent, Replies)>)
    ensures Known(Steps(es))
  {
    hide Known;
    if es == [] {
      StartKnown();
    } else {
      StepsKnown(es[..|es| - 1]);
      StepKeepsKnown(Steps(es[..|es| - 1]), es[|es| - 1].0, es[|es| - 1].1);
    }
  }

  lemma StartKnown()
    ensures Known(NO_DEVICES)
  {
  }

  /** Main theorem: for all events and replies, a registered device is listed, or a
      failed rollback left it behind; and with regular replies the list names the
      registered devices, each once, if and only if none was left behind. */
  lemma ListExactly(es: seq<(UsbEvent, Replies)>)
    ensures var open := Steps(es).open;
            && (forall id :: Registered(es, id) ==> id in open || LeftBehind(es, id))
            && (Regular(es) ==>
                  && Distinct(open)
                  && ((forall id :: id in open <==> Registered(es, id)) <==> (forall id :: !LeftBehind(es, id))))
  {
    hide Steps, Registered, LeftBehind, Regular;
    StepsKnown(es);
    StepsExactly(es);
    var d := Steps(es);
    if Regular(es) && !(forall id :: !LeftBehind(es, id)) {
      var id :| LeftBehind(es, id);
      assert id in d.leaked && id !in d.open && Registered(es, id);
    }
  }

  /** A failed rollback does leave a device behind: registered, but not listed, so
      that no later exit asks for it. */
  lemma RollbackLeaks(id: nat)
    ensures var es := [(Open(id), Replies(true, false, false))];
            && Steps(es) == Devices([], {id}, {id}, true)
            && Regular(es) && Registered(es, id) && LeftBehind(es, id)
  {
    var es := [(Open(id), Replies(true, false, false))];
    assert es[..|es| - 1] == [];
    assert Steps([]) == NO_DEVICES;
    StepsExactly(es);
  }

  /** The devices still registered after the listed ones were asked to unregister. */
  ghost predicate AfterExit(d: Devices, replies: seq<bool>, registered: set<nat>)
    requires |replies| == |d.open|
  {
    forall id :: id in registered <==>
      id in d.registered && forall i :: 0 <= i < |d.open| && d.open[i] == id ==> !replies[i]
  }

  /** When no request fails on exit, only devices left behind stay; with regular
      replies, exactly these. */
  lemma ExitLeavesLeaked(es: seq<(UsbEvent, Replies)>, replies: seq<bool>, registered: set<nat>)
    requires |replies| == |Steps(es).open| && AfterExit(Steps(es), replies, registered)
    requires forall i :: 0 <= i < |replies| ==> replies[i]
    ensures forall id :: id in registered ==> LeftBehind(es, id)
    ensures Regular(es) ==> forall id :: id in registered <==> LeftBehind(es, id)
  {
    hide Steps, Registered, LeftBehind, Regular;
    StepsKnown(es);
    StepsExactly(es);
    var d := Steps(es);
    forall id | id in registered ensures LeftBehind(es, id) {
      assert id !in d.open;
    }
    if Regular(es) {
      forall id | LeftBehind(es, id) ensures id in registered {
        assert id in d.leaked && id !in d.open;
      }
    }
  }

  // ----- The thread -----

  class AoaObject {
    var queue: seq<UsbEvent>
    var stopped: bool
    var usb: Usb
    var vecOpen: seq<nat>
    ghost var registered: set<nat> // the device's own state
    ghost var leaked: set<nat>
    ghost var regular: bool

    ghost function View(): Devices
      reads this
    {
      Devices(vecOpen, registered, leaked, regular)
    }

    ghost predicate Matches(s: System)
      reads this
    {
      queue == s.events && stopped == s.usbStopped && usb == s.usb
    }

    constructor ()
      ensures View() == NO_DEVICES && Matches(PasteProtocol.START)
    {
      queue, stopped, usb, vecOpen := [], false, Looking, [];
      registered, leaked, regular := {}, {}, true;
    }

    method CondSignal()
      modifies `usb
      ensures usb == SignalUsb(old(usb))
    {
      if usb.Sleeping? {
        usb := Sleeping(true);
      }
    }

    /** Queues an input event unless the queue is full. */
    method PushInput(key: Key, ghost s: System) returns (pushed: bool)
      requires Matches(s)
      modifies `queue, `usb
      ensures Matches(PushEvent(s, Input(key)))
      ensures pushed <==> queue == old(queue) + [Input(key)]
    {
      pushed := false;
      if |queue| < EVENT_QUEUE_LIMIT {
        var wasEmpty := queue == [];
        queue := queue + [Input(key)];
        pushed := true;
        if wasEmpty {
          CondSignal();
        }
      }
      assert !pushed ==> |queue| != |old(queue) + [Input(key)]|;
    }

    /** Queues an open or close event, whatever the length of the queue. */
    method PushOpenOrClose(e: UsbEvent, ghost s: System)
      requires Matches(s) && !e.Input?
      modifies `queue, `usb
      ensures Matches(PushEvent(s, e)) && queue == old(queue) + [e]
    {
      var wasEmpty := queue == [];
      queue := queue + [e];
      if wasEmpty {
        CondSignal();
      }
    }

    method RequestStop(ghost s: System)
      requires Matches(s)
      modifies `stopped, `usb
      ensures Matches(PasteProtocol.Exec(s, UsbStop))
    {
      stopped := true;
      CondSignal();
    }

    /** One turn of the thread: ends, blocks, starts waiting for an acknowledgement,
        goes on to send an input, or opens or closes a device. */
    method Turn(r: Replies, ghost s: System)
      requires Matches(s) && PasteProtocol.Enabled(s, UsbNext)
      modifies this
      ensures Matches(PasteProtocol.Exec(s, UsbNext))
      ensures View() == if old(stopped) || old(queue) == [] then old(View()) else Step(old(View()), old(queue)[0], r)
    {
      if !stopped && queue == [] {
        usb := Sleeping(false);
        return;
      }
      if stopped {
        usb := Ended;
        return;
      }
      var e := queue[0];
      queue := queue[1..];
      if e.Input? {
        usb := if e.key.ackToWait != SEQUENCE_INVALID then Acking(e.key) else Injecting(e.key);
      } else if e.Open? {
        var ok := SetupHid(e.hid, r);
        if ok {
          vecOpen := vecOpen + [e.hid];
        }
      } else {
        CloseHid(e.hid, r.unregister);
      }
    }

    /** Registers a device and sends its descriptor, or tries to undo it. */
    method SetupHid(hid: nat, r: Replies) returns (ok: bool)
      modifies `registered, `leaked, `regular
      ensures ok == (r.register && r.desc)
      ensures var d := Step(old(View()), Open(hid), r);
              View() == d.(open := vecOpen) && d.open == if ok then vecOpen + [hid] else vecOpen
    {
      if !r.register {
        return false;
      }
      regular := regular && hid !in registered;
      registered := registered + {hid};
      if !r.desc {
        leaked := leaked + {hid};
        if r.unregister {
          registered, leaked := registered - {hid}, leaked - {hid};
        }
        assert old(registered) + {hid} - {hid} == old(registered) - {hid};
        assert old(leaked) + {hid} - {hid} == old(leaked) - {hid};
        return false;
      }
      leaked := leaked - {hid};
      return true;
    }

    /** Unregisters a device; it may be one that was never listed. */
    method CloseHid(hid: nat, ok: bool)
      modifies `vecOpen, `registered, `leaked, `regular
      ensures View() == Step(old(View()), Close(hid), Replies(false, false, ok))
    {
      if ok {
        regular := regular && hid in registered;
        registered, leaked := registered - {hid}, leaked - {hid};
        var i := IndexOf(hid);
        if i >= 0 {
          vecOpen := vecOpen[..i] + vecOpen[i + 1..];
        }
      }
    }

    method IndexOf(hid: nat) returns (k: int)
      ensures -1 <= k < |vecOpen|
      ensures if k >= 0 then vecOpen[..k] + vecOpen[k + 1..] == Without(vecOpen, hid) && vecOpen[k] == hid
              else hid !in vecOpen && Without(vecOpen, hid) == vecOpen
    {
      var i := 0;
      while i < |vecOpen|
        invariant 0 <= i <= |vecOpen|
        invariant hid !in vecOpen[..i]
      {
        if vecOpen[i] == hid {
          WithoutAt(vecOpen, i, hid);
          return i;
        }
        i := i + 1;
      }
      WithoutAt(vecOpen, i, hid);
      return -1;
    }

    /** Before the thread exits: every listed device is asked to unregister. */
    method Exit(replies: seq<bool>)
      requires usb.Ended? && |replies| == |vecOpen|
      modifies `registered
      ensures AfterExit(old(View()), replies, registered)
    {
      var i := 0;
      while i < |vecOpen|
        invariant 0 <= i <= |vecOpen|
        invariant forall id :: id in registered <==>
                    id in old(registered) && forall j :: 0 <= j < i && vecOpen[j] == id ==> !replies[j]
      {
        if replies[i] {
          registered := registered - {vecOpen[i]};
        }
        i := i + 1;
      }
    }
  }

  lemma {:induction false} WithoutAt(open: seq<nat>, i: nat, id: nat)
    requires i <= |open| && id !in open[..i] && (i < |open| ==> open[i] == id)
    ensures Without(open, id) == if i < |open| then open[..i] + open[i + 1..] else open
  {
    if open != [] {
      if i == 0 {
        assert open[..0] + open[1..] == open[1..];
      } else {
        assert open[0] in open[..i] && open[..i][1..] == open[1..][..i - 1];
        var rest := open[1..];
        WithoutAt(rest, i - 1, id);
        if i < |open| {
          assert [open[0]] + (rest[..i - 1] + rest[i..]) == open[..i] + open[i + 1..];
        } else {
          assert [open[0]] + rest == open;
        }
      }
    }
  }
}
