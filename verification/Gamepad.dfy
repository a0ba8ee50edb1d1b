/** Gamepads over UHID: eight slots give every connected gamepad a device id, and
    their create, input and destroy messages share the lossy control queue. */
module Gamepad {
  import opened Common
  import opened Controller

  const MAX_GAMEPADS := 8
  const ID_FIRST := 3
  const ID_INVALID := 0

  datatype Event =
    | Added(id: nat)
    | Removed(id: nat)
    | Axis(id: nat, axis: int)
    | Button(id: nat, button: int)

  /** The six axes and fifteen buttons that have a place in the report. */
  predicate Known(e: Event) {
    (e.Axis? ==> 0 <= e.axis <= 5) && (e.Button? ==> 0 <= e.button <= 14)
  }

  type Slots = s: seq<nat> | |s| == MAX_GAMEPADS witness [0, 0, 0, 0, 0, 0, 0, 0]

  const EMPTY: Slots := [0, 0, 0, 0, 0, 0, 0, 0]

  /** The first slot holding `id`. */
  function Find(slots: seq<nat>, id: nat): (r: Option<nat>)
    ensures r.None? <==> id !in slots
    ensures r.Some? ==> r.value < |slots| && slots[r.value] == id
    ensures r.Some? ==> forall j :: 0 <= j < r.value ==> slots[j] != id
  {
    if slots == [] then None
    else if slots[0] == id then Some(0)
    else
      var r := Find(slots[1..], id);
      if r.None? then None else Some(r.value + 1)
  }

  /** The slots after an event, and the message it produces. */
  function Process(slots: Slots, e: Event): (Slots, Option<Msg>) {
    match e
    case Added(id) =>
      (match Find(slots, ID_INVALID)
       case None => (slots, None)
       case Some(i) => (slots[i := id], Some(UhidCreate(ID_FIRST + i))))
    case Removed(id) =>
      (match Find(slots, id)
       case None => (slots, None)
       case Some(i) => (slots[i := ID_INVALID], Some(UhidDestroy(ID_FIRST + i))))
    case _ =>
      (match Find(slots, e.id)
       case None => (slots, None)
       case Some(i) => (slots, if Known(e) then Some(UhidInput(ID_FIRST + i)) else None))
  }

  /** The gamepad processor, on top of the controller object. */
  class Processor {
    const slots: array<nat>
    const controller: ControllerObject

    ghost predicate Valid()
      reads this, slots
    {
      slots.Length == MAX_GAMEPADS
    }

    constructor (c: ControllerObject)
      ensures Valid() && fresh(slots) && controller == c && slots[..] == EMPTY
    {
      slots := new nat[MAX_GAMEPADS](_ => ID_INVALID);
      controller := c;
    }

    method SlotFind(id: nat) returns (r: int)
      requires Valid()
      ensures r == match Find(slots[..], id) case None => -1 case Some(i) => i
    {
      var i := 0;
      while i < MAX_GAMEPADS
        invariant 0 <= i <= MAX_GAMEPADS
        invariant forall j :: 0 <= j < i ==> slots[j] != id
      {
        if id == slots[i] {
          return i;
        }
        i := i + 1;
      }
      return -1;
    }

    /** Handles one event; the message, if any, goes through the queue rule. */
    method Handle(e: Event) returns (pushed: bool)
      requires Valid() && (e.Added? || e.Removed? ==> e.id != ID_INVALID)
      modifies slots, controller`queue, controller`consumer
      ensures Valid()
      ensures slots[..] == Process(old(slots[..]), e).0
      ensures controller.View() == match Process(old(slots[..]), e).1
                                   case None => old(controller.View())
                                   case Some(m) => Push(old(controller.View()), m)
    {
      pushed := false;
      match e {
        case Added(id) =>
          var i := SlotFind(ID_INVALID);
          if i == -1 {
            return;
          }
          slots[i] := id;
          pushed := controller.PushMsg(UhidCreate(ID_FIRST + i));
        case Removed(id) =>
          var i := SlotFind(id);
          if i == -1 {
            return;
          }
          slots[i] := ID_INVALID;
          pushed := controller.PushMsg(UhidDestroy(ID_FIRST + i));
        case Axis(id, axis) =>
          var i := SlotFind(id);
          if i == -1 || axis < 0 || axis > 5 {
            return;
          }
          pushed := controller.PushMsg(UhidInput(ID_FIRST + i));
        case Button(id, button) =>
          if button < 0 || button > 15 {
            return;
          }
          var i := SlotFind(id);
          if i == -1 || button > 14 {
            return;
          }
          pushed := controller.PushMsg(UhidInput(ID_FIRST + i));
      }
    }
  }

  // ----- Well-formed device messages -----

  /** Whether device `id` exists after the messages. */
  ghost predicate OpenAfter(ms: seq<Msg>, id: nat) {
    ms != [] &&
    var m := ms[|ms| - 1];
    if m == UhidCreate(id) then true
    else if m == UhidDestroy(id) then false
    else OpenAfter(ms[..|ms| - 1], id)
  }

  /** A message that is legal for device `id` when it exists or not. */
  ghost predicate Legal(open: bool, m: Msg, id: nat) {
    && (m == UhidCreate(id) ==> !open)
    && (m == UhidInput(id) || m == UhidDestroy(id) ==> open)
  }

  /** Create only when closed, input and destroy only when open. */
  ghost predicate WellFormed(ms: seq<Msg>, id: nat) {
    ms == [] ||
    (WellFormed(ms[..|ms| - 1], id) && Legal(OpenAfter(ms[..|ms| - 1], id), ms[|ms| - 1], id))
  }

  lemma {:induction false} WellFormedPrefix(a: seq<Msg>, b: seq<Msg>, id: nat)
    requires a <= b && WellFormed(b, id)
    ensures WellFormed(a, id)
  {
    if a != b {
      WellFormedPrefix(a, b[..|b| - 1], id);
    }
  }

  lemma AppendMsg(ms: seq<Msg>, m: Msg, id: nat)
    requires WellFormed(ms, id) && Legal(OpenAfter(ms, id), m, id)
    ensures WellFormed(ms + [m], id)
    ensures OpenAfter(ms + [m], id) ==
            if m == UhidCreate(id) then true else if m == UhidDestroy(id) then false else OpenAfter(ms, id)
  {
    assert (ms + [m])[..|ms|] == ms;
  }

  // ----- Runs: gamepad events among all other uses of the control queue -----

  predicate IsGamepadId(id: nat) {
    ID_FIRST <= id < ID_FIRST + MAX_GAMEPADS
  }

  predicate ForGamepad(m: Msg) {
    (m.UhidCreate? || m.UhidInput? || m.UhidDestroy?) && IsGamepadId(m.id)
  }

  datatype Pads = Pads(slots: Slots, ctl: Controller.State)

  datatype PadAction = PadEvent(e: Event) | Ctl(a: Controller.Action)

  /** Gamepad events carry a real id; nobody else speaks for gamepad devices. */
  predicate PadEnabled(s: Pads, a: PadAction) {
    match a
    case PadEvent(e) => e.id != ID_INVALID
    case Ctl(c) => Controller.Enabled(s.ctl, c) && (c.PushAction? ==> !ForGamepad(c.m))
  }

  function PadExec(s: Pads, a: PadAction): Pads
    requires PadEnabled(s, a)
  {
    match a
    case PadEvent(e) =>
      var (slots, m) := Process(s.slots, e);
      Pads(slots, if m.None? then s.ctl else Controller.Exec(s.ctl, PushAction(m.value)))
    case Ctl(c) => s.(ctl := Controller.Exec(s.ctl, c))
  }

  ghost predicate PadRun(s: Pads, actions: seq<PadAction>, t: Pads)
    decreases |actions|
  {
    if actions == [] then s == t
    else PadEnabled(s, actions[0]) && PadRun(PadExec(s, actions[0]), actions[1..], t)
  }

  const PADS_START := Pads(EMPTY, Controller.START)

  /** The messages accepted for the device of slot `i` are well formed, and they
      leave it open exactly when the slot is in use. */
  ghost predicate SlotOk(slots: Slots, accepted: seq<Msg>, i: nat)
    requires i < MAX_GAMEPADS
  {
    WellFormed(accepted, ID_FIRST + i) && (OpenAfter(accepted, ID_FIRST + i) <==> slots[i] != ID_INVALID)
  }

  ghost predicate SlotInv(slots: Slots, accepted: seq<Msg>) {
    forall i :: 0 <= i < MAX_GAMEPADS ==> SlotOk(slots, accepted, i)
  }

  ghost predicate PadInv(s: Pads) {
    Controller.Inv(s.ctl) && SlotInv(s.slots, s.ctl.h.accepted)
  }

  /** The message of an event keeps its slot in step, dropped or not: only input
      messages are ever dropped. */
  lemma EventKeepsSlot(slots: Slots, ms: seq<Msg>, e: Event, accepted: bool, i: nat)
    requires i < MAX_GAMEPADS && e.id != ID_INVALID && SlotInv(slots, ms)
    requires Process(slots, e).1.Some?
    requires !accepted ==> Droppable(Process(slots, e).1.value)
    ensures var (slots', m) := Process(slots, e);
            SlotOk(slots', if accepted then ms + [m.value] else ms, i)
  {
    hide WellFormed, OpenAfter, Find;
    var (slots', m) := Process(slots, e);
    assert SlotOk(slots, ms, i);
    if accepted {
      AppendMsg(ms, m.value, ID_FIRST + i);
    }
  }

  lemma EventKeepsSlots(s: Pads, e: Event)
    requires PadInv(s) && e.id != ID_INVALID
    ensures var t := PadExec(s, PadEvent(e)); SlotInv(t.slots, t.ctl.h.accepted)
  {
    var (slots', m) := Process(s.slots, e);
    var ms := s.ctl.h.accepted;
    if m.Some? {
      var ok := Accepts(s.ctl.c, m.value);
      var ms' := if ok then ms + [m.value] else ms;
      assert PadExec(s, PadEvent(e)).ctl.h.accepted == ms';
      forall i | 0 <= i < MAX_GAMEPADS ensures SlotOk(slots', ms', i) {
        EventKeepsSlot(s.slots, ms, e, ok, i);
      }
    }
  }

  lemma OtherKeepsSlots(s: Pads, c: Controller.Action)
    requires PadInv(s) && PadEnabled(s, Ctl(c))
    ensures SlotInv(s.slots, PadExec(s, Ctl(c)).ctl.h.accepted)
  {
    hide WellFormed, OpenAfter, Controller.Inv;
    var ms := s.ctl.h.accepted;
    var ms' := PadExec(s, Ctl(c)).ctl.h.accepted;
    if c.PushAction? && Accepts(s.ctl.c, c.m) {
      assert ms' == ms + [c.m];
      forall i | 0 <= i < MAX_GAMEPADS ensures SlotOk(s.slots, ms', i) {
        assert SlotOk(s.slots, ms, i);
        AppendMsg(ms, c.m, ID_FIRST + i);
      }
    } else {
      assert ms' == ms;
    }
  }

  lemma {:induction false} PadRunKeepsInv(s: Pads, actions: seq<PadAction>, t: Pads)
    requires PadInv(s) && PadRun(s, actions, t)
    ensures PadInv(t)
    decreases |actions|
  {
    if actions != [] {
      match actions[0] {
        case PadEvent(e) =>
          EventKeepsSlots(s, e);
          var (_, m) := Process(s.slots, e);
          if m.Some? {
            Controller.ExecKeepsInv(s.ctl, PushAction(m.value));
          }
        case Ctl(c) =>
          OtherKeepsSlots(s, c);
          Controller.ExecKeepsInv(s.ctl, c);
      }
      PadRunKeepsInv(PadExec(s, actions[0]), actions[1..], t);
    }
  }

  lemma StartInv()
    ensures PadInv(PADS_START)
  {
  }

  /** Main theorem: whatever the queue drops, the messages sent for a gamepad
      device create it only when it is closed and use or destroy it only when it
      is open; and every device left open on the accepted side has its slot. */
  lemma UhidDiscipline(actions: seq<PadAction>, t: Pads, id: nat)
    requires PadRun(PADS_START, actions, t) && IsGamepadId(id)
    ensures WellFormed(Controller.Queued(t.ctl.h.sent), id)
    ensures WellFormed(t.ctl.h.accepted, id)
    ensures OpenAfter(t.ctl.h.accepted, id) <==> t.slots[id - ID_FIRST] != ID_INVALID
  {
    StartInv();
    PadRunKeepsInv(PADS_START, actions, t);
    assert SlotOk(t.slots, t.ctl.h.accepted, id - ID_FIRST);
    Controller.QueuedPrefix(t.ctl.h.sent, t.ctl.h.took);
    WellFormedPrefix(Controller.Queued(t.ctl.h.sent), t.ctl.h.accepted, id);
  }

  // ----- A gamepad keeps its device -----

  ghost function After(slots: Slots, es: seq<Event>): Slots
    decreases |es|
  {
    if es == [] then slots else After(Process(slots, es[0]).0, es[1..])
  }

  /** The gamepad is in slot `i` and in no other. */
  ghost predicate OnlyAt(slots: Slots, g: nat, i: nat) {
    i < MAX_GAMEPADS && forall j :: 0 <= j < MAX_GAMEPADS ==> (slots[j] == g <==> j == i)
  }

  lemma OthersKeepPlace(slots: Slots, g: nat, i: nat, e: Event)
    requires OnlyAt(slots, g, i) && g != ID_INVALID
    requires e.Added? || e.Removed? ==> e.id != g
    ensures OnlyAt(Process(slots, e).0, g, i)
  {
    hide Find;
  }

  lemma {:induction false} AllKeepPlace(slots: Slots, g: nat, i: nat, es: seq<Event>)
    requires OnlyAt(slots, g, i) && g != ID_INVALID
    requires forall k :: 0 <= k < |es| && (es[k].Added? || es[k].Removed?) ==> es[k].id != g
    ensures OnlyAt(After(slots, es), g, i)
    decreases |es|
  {
    hide Process, OnlyAt;
    if es != [] {
      OthersKeepPlace(slots, g, i, es[0]);
      AllKeepPlace(Process(slots, es[0]).0, g, i, es[1..]);
    }
  }

  /** The slot of a gamepad decides the device of its messages. */
  lemma PlaceDecides(slots: Slots, i: nat, e: Event)
    requires OnlyAt(slots, e.id, i) && !e.Added?
    ensures Process(slots, e).1 == Answer(e, ID_FIRST + i)
  {
    hide Find;
    assert slots[i] == e.id;
  }

  /** The message for an event of the gamepad whose device is `d`. */
  function Answer(e: Event, d: nat): Option<Msg>
    requires !e.Added?
  {
    if e.Removed? then Some(UhidDestroy(d)) else if Known(e) then Some(UhidInput(d)) else None
  }

  lemma AddTakesPlace(slots: Slots, g: nat) returns (i: nat)
    requires g != ID_INVALID && g !in slots && ID_INVALID in slots
    ensures Process(slots, Added(g)).1 == Some(UhidCreate(ID_FIRST + i))
    ensures OnlyAt(Process(slots, Added(g)).0, g, i)
  {
    hide Find;
    i := Find(slots, ID_INVALID).value;
  }

  /** From the event that adds a gamepad until the one that removes it, all its
      messages name the device created for it, whatever other gamepads do. */
  lemma DeviceSticks(slots: Slots, g: nat, es: seq<Event>, e: Event)
    requires g != ID_INVALID && g !in slots && ID_INVALID in slots
    requires forall k :: 0 <= k < |es| && (es[k].Added? || es[k].Removed?) ==> es[k].id != g
    requires e.id == g && !e.Added?
    ensures var (slots', create) := Process(slots, Added(g));
            && create.Some? && create.value.UhidCreate?
            && var d, m := create.value.id, Process(After(slots', es), e).1;
               match e
               case Removed(_) => m == Some(UhidDestroy(d))
               case Axis(_, axis) => m == if 0 <= axis <= 5 then Some(UhidInput(d)) else None
               case Button(_, button) => m == if 0 <= button <= 14 then Some(UhidInput(d)) else None
               case Added(_) => true
  {
    hide Find, Process, OnlyAt, After;
    var i := AddTakesPlace(slots, g);
    var slots' := Process(slots, Added(g)).0;
    AllKeepPlace(slots', g, i, es);
    PlaceDecides(After(slots', es), i, e);
  }

  /** A new gamepad gets the lowest free device, and none when all eight are in use;
      nothing is said for a gamepad that is not known. */
  lemma LowestFreeDevice(slots: Slots, g: nat, e: Event)
    ensures var m := Process(slots, Added(g)).1;
            && (m.None? <==> forall i :: 0 <= i < 8 ==> slots[i] != 0)
            && (m.Some? ==>
                  && m.value.UhidCreate? && 3 <= m.value.id <= 10 && slots[m.value.id - 3] == 0
                  && forall i :: 0 <= i < m.value.id - 3 ==> slots[i] != 0)
    ensures !e.Added? && e.id !in slots ==> Process(slots, e) == (slots, None)
  {
    hide Find;
    var r := Find(slots, ID_INVALID);
    assert r.None? ==> forall i :: 0 <= i < 8 ==> slots[i] in slots;
  }

  /** Messages produced by gamepad events only name gamepad devices. */
  lemma ProducedIds(slots: Slots, e: Event)
    ensures var m := Process(slots, e).1;
            m.Some? ==>
              (m.value.UhidCreate? || m.value.UhidInput? || m.value.UhidDestroy?) && 3 <= m.value.id <= 10
  {
  }

  /** The non-zero id matters exactly for input events while a slot is free: the
      invalid id then finds the free slot and speaks for a closed device. */
  lemma InvalidIdSpeaksForClosed(slots: Slots, e: Event)
    requires e.Axis? || e.Button?
    ensures var m := Process(slots, e).1;
            (m.Some? && slots[m.value.id - ID_FIRST] == ID_INVALID)
            <==> (e.id == ID_INVALID && Known(e) && ID_INVALID in slots)
  {
  }
}
