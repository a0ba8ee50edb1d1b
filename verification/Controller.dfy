/** The control channel: a queue that drops some messages when it is long, a
    slot that keeps only the latest display size, and one consumer thread woken
    by a condition variable. */
module Controller {

  const QUEUE_LIMIT := 60

  datatype Msg =
    | SetClipboard(sequence: nat, paste: bool)
    | UhidCreate(id: nat)
    | UhidInput(id: nat)
    | UhidDestroy(id: nat)
    | ResizeDisplay(width: nat, height: nat)
    | Other(kind: nat)

  predicate Droppable(m: Msg) {
    !m.UhidCreate? && !m.UhidDestroy?
  }

  /** Where the consumer thread is: about to look at the shared state, blocked
      (and possibly signalled), sending a message, or ended. */
  datatype Consumer = Running | Waiting(signalled: bool) | Sending(msg: Msg) | Done

  /** The state protected by the mutex, with the consumer's position. The size
      slot is set when its width is not zero. */
  datatype Core = Core(queue: seq<Msg>, width: nat, height: nat, stopped: bool, consumer: Consumer)

  const INITIAL := Core([], 0, 0, false, Running)

  function Signal(c: Core): Core {
    if c.consumer.Waiting? then c.(consumer := Waiting(true)) else c
  }

  predicate Accepts(c: Core, m: Msg) {
    |c.queue| < QUEUE_LIMIT || !Droppable(m)
  }

  function Push(c: Core, m: Msg): Core {
    if |c.queue| < QUEUE_LIMIT then
      var c' := c.(queue := c.queue + [m]);
      if c.queue == [] then Signal(c') else c'
    else if !Droppable(m) then c.(queue := c.queue + [m])
    else c
  }

  function Resize(c: Core, w: nat, h: nat): Core {
    var c' := c.(width := w, height := h);
    if c.width != 0 then c' else Signal(c')
  }

  function Stop(c: Core): Core {
    Signal(c.(stopped := true))
  }

  /** The consumer's critical section: end, take the size, take a message, or
      wait. */
  function Check(c: Core): Core {
    if c.stopped then c.(consumer := Done)
    else if c.width != 0 then
      c.(width := 0, height := 0, consumer := Sending(ResizeDisplay(c.width, c.height)))
    else if c.queue != [] then
      c.(queue := c.queue[1..], consumer := Sending(c.queue[0]))
    else c.(consumer := Waiting(false))
  }

  /** The controller object. Each method is one critical section. */
  class ControllerObject {
    var queue: seq<Msg>
    var width: nat
    var height: nat
    var stopped: bool
    var consumer: Consumer

    function View(): Core
      reads this
    {
      Core(queue, width, height, stopped, consumer)
    }

    constructor ()
      ensures View() == INITIAL
    {
      queue, width, height, stopped, consumer := [], 0, 0, false, Running;
    }

    method CondSignal()
      modifies `consumer
      ensures View() == Signal(old(View()))
    {
      if consumer.Waiting? {
        consumer := Waiting(true);
      }
    }

    method PushMsg(m: Msg) returns (pushed: bool)
      requires !m.ResizeDisplay?
      modifies `queue, `consumer
      ensures View() == Push(old(View()), m)
      ensures pushed == Accepts(old(View()), m)
    {
      pushed := false;
      if |queue| < QUEUE_LIMIT {
        var wasEmpty := queue == [];
        queue := queue + [m];
        pushed := true;
        if wasEmpty {
          CondSignal();
        }
      } else if !Droppable(m) {
        queue := queue + [m];
        pushed := true;
      }
    }

    method RequestResize(w: nat, h: nat)
      requires w != 0 && h != 0
      modifies `width, `height, `consumer
      ensures View() == Resize(old(View()), w, h)
    {
      var wasSet := width != 0;
      width, height := w, h;
      if !wasSet {
        CondSignal();
      }
    }

    method RequestStop()
      modifies `stopped, `consumer
      ensures View() == Stop(old(View()))
    {
      stopped := true;
      CondSignal();
    }

    /** One turn of the consumer loop up to the point where it has a message,
        blocks or ends. */
    method Next()
      requires consumer.Running?
      modifies this
      ensures View() == Check(old(View()))
    {
      if !stopped && width == 0 && queue == [] {
        consumer := Waiting(false);
        return;
      }
      if stopped {
        consumer := Done;
        return;
      }
      var hasResize := width != 0;
      assert hasResize || queue != [];
      if hasResize {
        consumer := Sending(ResizeDisplay(width, height));
        width, height := 0, 0;
      } else {
        consumer := Sending(queue[0]);
        queue := queue[1..];
      }
    }
  }

  // ----- Runs -----

  /** What happened so far: messages accepted, messages taken by the consumer,
      messages put on the socket, display sizes requested, and which of the
      requests the consumer took. */
  datatype History = History(accepted: seq<Msg>, took: seq<Msg>, sent: seq<Msg>,
                             requests: seq<(nat, nat)>, picked: seq<nat>)

  datatype State = State(c: Core, h: History)

  datatype Action =
    | PushAction(m: Msg)
    | ResizeAction(w: nat, h: nat)
    | StopAction
    | WakeAction       // signalled or spurious
    | CheckAction
    | SentAction(ok: bool)

  predicate Enabled(s: State, a: Action) {
    match a
    case PushAction(m) => !m.ResizeDisplay?
    case ResizeAction(w, h) => w != 0 && h != 0
    case StopAction => true
    case WakeAction => s.c.consumer.Waiting?
    case CheckAction => s.c.consumer.Running?
    case SentAction(_) => s.c.consumer.Sending?
  }

  function Exec(s: State, a: Action): State
    requires Enabled(s, a)
  {
    var c, h := s.c, s.h;
    match a
    case PushAction(m) =>
      State(Push(c, m), if Accepts(c, m) then h.(accepted := h.accepted + [m]) else h)
    case ResizeAction(w, ht) =>
      State(Resize(c, w, ht), h.(requests := h.requests + [(w, ht)]))
    case StopAction => s.(c := Stop(c))
    case WakeAction => s.(c := c.(consumer := Running))
    case CheckAction => State(Check(c), Took(c, h))
    case SentAction(ok) =>
      if ok then State(c.(consumer := Running), h.(sent := h.sent + [c.consumer.msg]))
      else s.(c := c.(consumer := Done))
  }

  /** The history after the consumer's critical section. */
  function Took(c: Core, h: History): History {
    var c' := Check(c);
    if !c'.consumer.Sending? then h
    else h.(took := h.took + [c'.consumer.msg],
            picked := if c.width != 0 && h.requests != [] then h.picked + [|h.requests| - 1] else h.picked)
  }

  ghost predicate Run(s: State, actions: seq<Action>, t: State)
    decreases |actions|
  {
    if actions == [] then s == t
    else Enabled(s, actions[0]) && Run(Exec(s, actions[0]), actions[1..], t)
  }

  const START := State(INITIAL, History([], [], [], [], []))

  // ----- The invariant -----

  /** The messages other than display sizes. */
  ghost function Queued(ms: seq<Msg>): seq<Msg> {
    if ms == [] then []
    else Queued(ms[..|ms| - 1]) + (if ms[|ms| - 1].ResizeDisplay? then [] else [ms[|ms| - 1]])
  }

  /** The display sizes. */
  ghost function Sizes(ms: seq<Msg>): seq<(nat, nat)> {
    if ms == [] then []
    else
      var m := ms[|ms| - 1];
      Sizes(ms[..|ms| - 1]) + (if m.ResizeDisplay? then [(m.width, m.height)] else [])
  }

  ghost function Droppables(ms: seq<Msg>): (n: nat)
    ensures n <= |ms|
  {
    if ms == [] then 0
    else Droppables(ms[..|ms| - 1]) + (if Droppable(ms[|ms| - 1]) then 1 else 0)
  }

  /** No wakeup is lost: a blocked consumer that was not signalled has nothing
      to do. */
  ghost predicate WakeInv(c: Core) {
    c.consumer == Waiting(false) ==> c.queue == [] && c.width == 0 && !c.stopped
  }

  ghost predicate QueueInv(queue: seq<Msg>) {
    && Droppables(queue) <= QUEUE_LIMIT
    && forall i :: 0 <= i < |queue| ==> !queue[i].ResizeDisplay?
  }

  /** What the consumer took is on the socket, except the message it is sending
      or failed to send. */
  ghost predicate WireInv(consumer: Consumer, took: seq<Msg>, sent: seq<Msg>) {
    match consumer
    case Sending(m) => took == sent + [m]
    case Done => sent <= took
    case _ => took == sent
  }

  /** Every message accepted was taken, in order, or is still queued. */
  ghost predicate FifoInv(accepted: seq<Msg>, took: seq<Msg>, queue: seq<Msg>) {
    accepted == Queued(took) + queue
  }

  /** The sizes taken are the requests picked, in order and none twice. */
  ghost predicate PickInv(requests: seq<(nat, nat)>, picked: seq<nat>, sizes: seq<(nat, nat)>) {
    && |picked| == |sizes|
    && (forall i :: 0 <= i < |picked| ==> picked[i] < |requests| && requests[picked[i]] == sizes[i])
    && (forall i, j :: 0 <= i < j < |picked| ==> picked[i] < picked[j])
  }

  /** The slot holds the newest request until the consumer picks it. */
  ghost predicate SlotInv(requests: seq<(nat, nat)>, picked: seq<nat>, w: nat, h: nat) {
    var n := |requests|;
    if w != 0
    then n > 0 && requests[n - 1] == (w, h) && (picked == [] || picked[|picked| - 1] < n - 1)
    else n == 0 || (picked != [] && picked[|picked| - 1] == n - 1)
  }

  ghost predicate Inv(s: State) {
    && WakeInv(s.c)
    && QueueInv(s.c.queue)
    && WireInv(s.c.consumer, s.h.took, s.h.sent)
    && FifoInv(s.h.accepted, s.h.took, s.c.queue)
    && PickInv(s.h.requests, s.h.picked, Sizes(s.h.took))
    && SlotInv(s.h.requests, s.h.picked, s.c.width, s.c.height)
  }

  lemma AppendOne(ms: seq<Msg>, m: Msg)
    ensures Queued(ms + [m]) == if m.ResizeDisplay? then Queued(ms) else Queued(ms) + [m]
    ensures Sizes(ms + [m]) == if m.ResizeDisplay? then Sizes(ms) + [(m.width, m.height)] else Sizes(ms)
    ensures Droppables(ms + [m]) == Droppables(ms) + (if Droppable(m) then 1 else 0)
  {
    assert (ms + [m])[..|ms|] == ms;
  }

  lemma {:induction false} DroppablesTail(ms: seq<Msg>)
    requires ms != []
    ensures Droppables(ms[1..]) <= Droppables(ms)
  {
    if |ms| > 1 {
      DroppablesTail(ms[..|ms| - 1]);
      assert ms[1..][..|ms| - 2] == ms[..|ms| - 1][1..];
    }
  }

  lemma {:induction false} QueuedPrefix(a: seq<Msg>, b: seq<Msg>)
    requires a <= b
    ensures Queued(a) <= Queued(b)
  {
    if a != b {
      QueuedPrefix(a, b[..|b| - 1]);
    }
  }

  /** A message that the rule accepts keeps the queue within its limit. */
  lemma QueueGrows(queue: seq<Msg>, m: Msg)
    requires QueueInv(queue) && !m.ResizeDisplay?
    requires |queue| < QUEUE_LIMIT || !Droppable(m)
    ensures QueueInv(queue + [m])
  {
    AppendOne(queue, m);
  }

  lemma PushKeepsInv(s: State, m: Msg)
    requires Inv(s) && !m.ResizeDisplay?
    ensures Inv(Exec(s, PushAction(m)))
  {
    hide PickInv, SlotInv, Queued, Sizes, Droppables, QueueInv;
    if Accepts(s.c, m) {
      QueueGrows(s.c.queue, m);
      var t := Exec(s, PushAction(m));
      var q := s.c.queue + [m];
      assert t == State(s.c.(queue := q, consumer := t.c.consumer), s.h.(accepted := s.h.accepted + [m]));
      assert FifoInv(t.h.accepted, t.h.took, q);
      assert WakeInv(t.c) && WireInv(t.c.consumer, t.h.took, t.h.sent);
    } else {
      assert Exec(s, PushAction(m)) == s;
    }
  }

  /** Picking the newest request. */
  lemma PickNewest(requests: seq<(nat, nat)>, picked: seq<nat>, sizes: seq<(nat, nat)>, w: nat, h: nat)
    requires PickInv(requests, picked, sizes) && SlotInv(requests, picked, w, h) && w != 0
    ensures PickInv(requests, picked + [|requests| - 1], sizes + [(w, h)])
    ensures SlotInv(requests, picked + [|requests| - 1], 0, 0)
  {
  }

  lemma TakeSizeKeepsInv(s: State)
    requires Inv(s) && s.c.consumer.Running? && !s.c.stopped && s.c.width != 0
    ensures Inv(Exec(s, CheckAction))
  {
    hide PickInv, Queued, Sizes, Droppables, QueueInv;
    var c, h := s.c, s.h;
    var m := ResizeDisplay(c.width, c.height);
    PickNewest(h.requests, h.picked, Sizes(h.took), c.width, c.height);
    AppendOne(h.took, m);
    var c' := c.(width := 0, height := 0, consumer := Sending(m));
    var h' := h.(took := h.took + [m], picked := h.picked + [|h.requests| - 1]);
    assert Exec(s, CheckAction) == State(c', h');
    assert PickInv(h'.requests, h'.picked, Sizes(h'.took));
  }

  lemma TakeMsgKeepsInv(s: State)
    requires Inv(s) && s.c.consumer.Running? && !s.c.stopped && s.c.width == 0 && s.c.queue != []
    ensures Inv(Exec(s, CheckAction))
  {
    hide PickInv, SlotInv, Queued, Sizes, Droppables;
    var c, h := s.c, s.h;
    var q := c.queue;
    var c' := c.(queue := q[1..], consumer := Sending(q[0]));
    var h' := h.(took := h.took + [q[0]]);
    assert Exec(s, CheckAction) == State(c', h');
    AppendOne(h.took, q[0]);
    assert QueueInv(q[1..]) by {
      DroppablesTail(q);
    }
    assert FifoInv(h'.accepted, h'.took, q[1..]) by {
      assert q == [q[0]] + q[1..];
    }
  }

  lemma ExecKeepsInv(s: State, a: Action)
    requires Inv(s) && Enabled(s, a)
    ensures Inv(Exec(s, a))
  {
    match a
    case PushAction(m) => PushKeepsInv(s, m);
    case CheckAction =>
      if !s.c.stopped && s.c.width != 0 {
        TakeSizeKeepsInv(s);
      } else if !s.c.stopped && s.c.queue != [] {
        TakeMsgKeepsInv(s);
      }
    case ResizeAction(w, h) =>
    case SentAction(ok) =>
    case StopAction =>
    case WakeAction =>
  }

  lemma {:induction false} RunKeepsInv(s: State, actions: seq<Action>, t: State)
    requires Inv(s) && Run(s, actions, t)
    ensures Inv(t)
    decreases |actions|
  {
    if actions != [] {
      ExecKeepsInv(s, actions[0]);
      RunKeepsInv(Exec(s, actions[0]), actions[1..], t);
    }
  }

  // ----- What holds in every reachable state -----

  lemma Reachable(actions: seq<Action>, t: State)
    requires Run(START, actions, t)
    ensures Inv(t)
  {
    hide Run;
    RunKeepsInv(START, actions, t);
  }

  /** Main theorem on the queue: no wakeup is lost, what was sent is a prefix of
      what was accepted, at most 60 droppable messages are queued, and in every state
      a message is accepted exactly when fewer than 60 are queued or it creates or
      destroys a device. */
  lemma QueueSafety(actions: seq<Action>, t: State)
    requires Run(START, actions, t)
    ensures t.c.consumer == Waiting(false) ==> t.c.queue == [] && t.c.width == 0 && !t.c.stopped
    ensures Queued(t.h.sent) <= t.h.accepted
    ensures t.c.consumer.Running? || t.c.consumer.Waiting? ==> t.h.accepted == Queued(t.h.sent) + t.c.queue
    ensures Droppables(t.c.queue) <= 60
    ensures forall m: Msg ::
              Push(t.c, m).queue ==
              if m.UhidCreate? || m.UhidDestroy? || |t.c.queue| < 60 then t.c.queue + [m] else t.c.queue
  {
    hide Run;
    Reachable(actions, t);
    QueuedPrefix(t.h.sent, t.h.took);
  }

  /** A requested display size overtakes the queued messages, and a stopped controller
      takes nothing further. */
  lemma TakesFirst(actions: seq<Action>, t: State)
    requires Run(START, actions, t) && t.c.consumer.Running?
    ensures Exec(t, StopAction).c.stopped
    ensures t.c.width != 0 ==> t.h.requests != []
    ensures var u := Exec(t, CheckAction);
            && (t.c.stopped ==> u.c.consumer.Done? && u.h == t.h && u.c.queue == t.c.queue)
            && (!t.c.stopped && t.c.width != 0 ==>
                  var (w, h) := t.h.requests[|t.h.requests| - 1];
                  u.c.consumer == Sending(ResizeDisplay(w, h)) && u.c.queue == t.c.queue && u.c.width == 0)
            && (!t.c.stopped && t.c.width == 0 && t.c.queue != [] ==>
                  u.c.consumer == Sending(t.c.queue[0]) && u.c.queue == t.c.queue[1..])
            && (!t.c.stopped && t.c.width == 0 && t.c.queue == [] ==> u.c.consumer == Waiting(false))
  {
    hide Run, Sizes, Queued, Droppables;
    Reachable(actions, t);
  }

  /** Main theorem on display sizes: the sizes taken for sending are requests, in
      order and none twice; the newest request is in the slot or was taken, so
      every other one was taken or replaced by a later one. */
  lemma ResizeSafety(actions: seq<Action>, t: State)
    requires Run(START, actions, t)
    ensures PickInv(t.h.requests, t.h.picked, Sizes(t.h.took))
    ensures t.h.sent <= t.h.took
    ensures t.h.requests != [] ==>
              var newest := |t.h.requests| - 1;
              || (t.c.width != 0 && (t.c.width, t.c.height) == t.h.requests[newest])
              || newest in t.h.picked
  {
    hide Run, Sizes, Queued, Droppables;
    Reachable(actions, t);
    assert t.h.picked != [] ==> t.h.picked[|t.h.picked| - 1] in t.h.picked;
  }

  // ----- Nothing accepted is left behind -----

  predicate Settled(c: Consumer) {
    c == Waiting(false) || c.Done?
  }

  /** What the consumer thread does next, on a working socket. */
  function Turn(c: Consumer): Action
    requires !Settled(c)
  {
    match c
    case Waiting(_) => WakeAction
    case Running => CheckAction
    case Sending(_) => SentAction(true)
  }

  /** An upper bound of the number of turns before the consumer blocks. */
  function Work(c: Core): nat {
    2 * |c.queue| + (if c.width != 0 then 2 else 0)
    + (match c.consumer
       case Waiting(signalled) => if signalled then 2 else 0
       case Running => 1
       case Sending(_) => 2
       case Done => 0)
  }

  lemma TurnWorks(s: State)
    requires !Settled(s.c.consumer)
    ensures Enabled(s, Turn(s.c.consumer))
    ensures Work(Exec(s, Turn(s.c.consumer)).c) < Work(s.c)
  {
  }

  /** The consumer thread runs alone until it blocks. */
  ghost function Settle(s: State): State
    decreases Work(s.c)
  {
    if Settled(s.c.consumer) then s
    else
      TurnWorks(s);
      Settle(Exec(s, Turn(s.c.consumer)))
  }

  lemma {:induction false} SettleKeeps(s: State)
    requires Inv(s) && !s.c.stopped && !s.c.consumer.Done?
    ensures var u := Settle(s);
            && Inv(u) && u.c.consumer == Waiting(false)
            && u.h.accepted == s.h.accepted && u.h.requests == s.h.requests
    decreases Work(s.c)
  {
    hide Inv, Work;
    if !Settled(s.c.consumer) {
      var a := Turn(s.c.consumer);
      TurnWorks(s);
      ExecKeepsInv(s, a);
      SettleKeeps(Exec(s, a));
    }
  }

  /** From every reachable state, unless the controller stops, every accepted
      message ends up on the socket and the newest display size is the last one
      sent. */
  lemma NothingLeftBehind(actions: seq<Action>, t: State)
    requires Run(START, actions, t) && !t.c.stopped && !t.c.consumer.Done?
    ensures var u := Settle(t);
            && u.c.consumer == Waiting(false)
            && Queued(u.h.sent) == t.h.accepted
            && (t.h.requests != [] ==>
                  var sizes := Sizes(u.h.sent);
                  sizes != [] && sizes[|sizes| - 1] == t.h.requests[|t.h.requests| - 1])
  {
    hide Queued, Sizes, Droppables, Run, Settle;
    Reachable(actions, t);
    SettleKeeps(t);
    Blocked(Settle(t));
  }

  /** A consumer that is blocked for good sent everything. */
  lemma Blocked(u: State)
    requires Inv(u) && u.c.consumer == Waiting(false)
    ensures Queued(u.h.sent) == u.h.accepted
    ensures u.h.requests != [] ==>
              var sizes := Sizes(u.h.sent);
              sizes != [] && sizes[|sizes| - 1] == u.h.requests[|u.h.requests| - 1]
  {
    hide Queued, Sizes, Droppables;
    assert Queued(u.h.took) + [] == Queued(u.h.took);
  }
}
