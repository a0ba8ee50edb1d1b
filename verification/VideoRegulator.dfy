/** Video buffering: a clock estimates the offset between device and computer
    time by an integer weighted average, and a delay queue hands frames and
    sessions on in order, each frame no later than a fixed delay. */
module VideoRegulator {
  import opened Common

  const CLOCK_RANGE := 32

  // ----- The clock -----

  datatype ClockState = ClockState(range: nat, offset: int)

  const CLOCK_START := ClockState(0, 0)

  /** The clock after observing one difference between computer and stream time. */
  function Observe(c: ClockState, difference: int): ClockState {
    var range := if c.range < CLOCK_RANGE then c.range + 1 else c.range;
    var clockWeight := range - 1;
    var valueWeight := CLOCK_RANGE - range + 1;
    ClockState(range, Div(c.offset * clockWeight + difference * valueWeight, CLOCK_RANGE))
  }

  class Clock {
    var range: nat
    var offset: int

    function View(): ClockState
      reads this
    {
      ClockState(range, offset)
    }

    constructor ()
      ensures View() == CLOCK_START
    {
      range, offset := 0, 0;
    }

    method Update(system: int, stream: int)
      modifies this
      ensures View() == Observe(old(View()), system - stream)
    {
      if range < CLOCK_RANGE {
        range := range + 1;
      }
      var difference := system - stream;
      var clockWeight := range - 1;
      var valueWeight := CLOCK_RANGE - range + 1;
      offset := Div(offset * clockWeight + difference * valueWeight, CLOCK_RANGE);
    }

    /** The code asserts that the clock was updated before. */
    function ToSystemTime(stream: int): int
      requires range > 0
      reads this
    {
      stream + offset
    }
  }

  ghost function ObserveAll(differences: seq<int>): ClockState {
    if differences == [] then CLOCK_START
    else Observe(ObserveAll(differences[..|differences| - 1]), differences[|differences| - 1])
  }

  ghost predicate AllWithin(s: seq<int>, lo: int, hi: int) {
    forall i :: 0 <= i < |s| ==> lo <= s[i] <= hi
  }

  /** A weighted mean of two values, truncated towards zero, stays between any
      integer bounds of both. */
  lemma MeanWithin(x: int, y: int, w: nat, lo: int, hi: int)
    requires w < CLOCK_RANGE && lo <= y <= hi && (w > 0 ==> lo <= x <= hi)
    ensures lo <= Div(x * w + y * (CLOCK_RANGE - w), CLOCK_RANGE) <= hi
  {
    var v := CLOCK_RANGE - w;
    MulMono(lo, y, v);
    MulMono(y, hi, v);
    if w > 0 {
      MulMono(lo, x, w);
      MulMono(x, hi, w);
    }
    var n := x * w + y * v;
    assert lo * w + lo * v == CLOCK_RANGE * lo;
    assert hi * w + hi * v == CLOCK_RANGE * hi;
    assert CLOCK_RANGE * lo <= n <= CLOCK_RANGE * hi;
  }

  /** After any updates the offset lies between the smallest and the largest
      difference observed. */
  lemma {:induction false} OffsetWithin(differences: seq<int>, lo: int, hi: int)
    requires differences != [] && AllWithin(differences, lo, hi)
    ensures var c := ObserveAll(differences); 1 <= c.range <= CLOCK_RANGE && lo <= c.offset <= hi
  {
    var before := differences[..|differences| - 1];
    var last := differences[|differences| - 1];
    var c := ObserveAll(before);
    if before != [] {
      OffsetWithin(before, lo, hi);
    }
    var range := if c.range < CLOCK_RANGE then c.range + 1 else c.range;
    MeanWithin(c.offset, last, range - 1, lo, hi);
  }

  /** How much each observation counts: the first one is taken as it is; the n-th
      counts for 33 - n parts of 32, and from the 32nd on each counts for one part;
      the rest is the estimate so far. The result is exact up to truncation. */
  lemma ObserveWeights(differences: seq<int>, d: int)
    ensures var n := if |differences| + 1 < 32 then |differences| + 1 else 32;
            var old_, new_ := ObserveAll(differences).offset, ObserveAll(differences + [d]).offset;
            var exact := old_ * (n - 1) + d * (33 - n);
            && -32 < exact - 32 * new_ < 32
            && (exact >= 0 ==> 0 <= 32 * new_ <= exact) && (exact <= 0 ==> exact <= 32 * new_ <= 0)
            && (differences == [] ==> new_ == d)
  {
    hide Div, Observe, ObserveAll;
    RangeCounts(differences);
    ObserveLast(differences, d);
    var c := ObserveAll(differences);
    ObserveOffset(c, d);
    var n := if |differences| + 1 < 32 then |differences| + 1 else 32;
    DivBounds(c.offset * (n - 1) + d * (33 - n));
    if differences == [] {
      assert c.offset * 0 + d * 32 == 32 * d;
    }
  }

  lemma ObserveLast(differences: seq<int>, d: int)
    ensures ObserveAll(differences + [d]) == Observe(ObserveAll(differences), d)
  {
    hide Observe;
    var all := differences + [d];
    assert all[..|all| - 1] == differences;
  }

  lemma ObserveOffset(c: ClockState, d: int)
    ensures var range := if c.range < 32 then c.range + 1 else c.range;
            Observe(c, d).offset == Div(c.offset * (range - 1) + d * (33 - range), 32)
  {
    hide Div;
    var range := if c.range < 32 then c.range + 1 else c.range;
    var weight := CLOCK_RANGE - range + 1;
    assert weight == 33 - range;
    assert d * weight == d * (33 - range);
  }

  lemma DivBounds(x: int)
    ensures var q := Div(x, 32); -32 < x - 32 * q < 32 && (x >= 0 ==> 0 <= 32 * q <= x) && (x <= 0 ==> x <= 32 * q <= 0)
  {
  }

  lemma {:induction false} RangeCounts(differences: seq<int>)
    ensures ObserveAll(differences).range == if |differences| < 32 then |differences| else 32
  {
    if differences != [] {
      RangeCounts(differences[..|differences| - 1]);
    }
  }

  // ----- The delay queue -----

  datatype Item = Frame(pts: int, id: nat) | Session(id: nat)

  /** The buffering thread: looking for an item, computing a deadline, waiting for
      it, handing an item on, or ended. A frame taken at time `taken` is handed
      on at `limit` at the latest. */
  datatype Thread =
    | Looking
    | Holding(item: Item, taken: int, limit: int)
    | Waiting(item: Item, taken: int, limit: int, deadline: int)
    | Handing(item: Item)
    | Ended
    | Crashed

  datatype State = State(
    delay: int, firstAsap: bool,
    clock: ClockState, queue: seq<Item>, stopped: bool, thread: Thread,
    differences: seq<int>, // every difference observed by the clock
    queued: seq<Item>, handed: seq<Item>, direct: seq<Item>)

  datatype Action =
    | PushFrame(f: Item, now: int)
    | PushSession(s: Item)
    | Close
    | Take(now: int)
    | Schedule
    | TimedOut
    | Woken
    | Handed(ok: bool)

  predicate Enabled(s: State, a: Action) {
    match a
    case PushFrame(f, _) => f.Frame?
    case PushSession(k) => k.Session?
    case Close => true
    case Take(_) => s.thread.Looking? && (s.stopped || s.queue != [])
    case Schedule => s.thread.Holding?
    case TimedOut => s.thread.Waiting?
    case Woken => s.thread.Waiting?
    case Handed(_) => s.thread.Handing?
  }

  function Enqueue(s: State, item: Item): State {
    s.(queue := s.queue + [item], queued := s.queued + [item])
  }

  /** A new frame updates the clock; the very first one may skip the queue. */
  function AcceptFrame(s: State, f: Item, now: int): State
    requires f.Frame?
  {
    var s' := s.(clock := Observe(s.clock, now - f.pts), differences := s.differences + [now - f.pts]);
    if s.firstAsap && s'.clock.range == 1 then s'.(direct := s.direct + [f]) else Enqueue(s', f)
  }

  function TakeItem(s: State, now: int): State
    requires s.stopped || s.queue != []
  {
    if s.stopped then s.(thread := Ended, queue := [])
    else
      var item := s.queue[0];
      var s' := s.(queue := s.queue[1..]);
      s'.(thread := if item.Frame? then Holding(item, now, now + s.delay) else Handing(item))
  }

  /** The deadline of the held frame, from the current estimate of the clock. */
  function ScheduleItem(s: State): State
    requires s.thread.Holding?
  {
    var Holding(item, taken, limit) := s.thread;
    if s.stopped then s.(thread := Ended, queue := [])
    else if s.clock.range == 0 || item.Session? then s.(thread := Crashed)
    else
      var deadline := item.pts + s.clock.offset + s.delay;
      s.(thread := Waiting(item, taken, limit, if deadline > limit then limit else deadline))
  }

  function Exec(s: State, a: Action): State
    requires Enabled(s, a)
  {
    match a
    case PushFrame(f, now) => if s.stopped then s else AcceptFrame(s, f, now)
    case PushSession(k) => if s.stopped then s else Enqueue(s, k)
    case Close => s.(stopped := true)
    case Take(now) => TakeItem(s, now)
    case Schedule => ScheduleItem(s)
    case TimedOut =>
      if s.stopped then s.(thread := Ended, queue := []) else s.(thread := Handing(s.thread.item))
    case Woken => s.(thread := Holding(s.thread.item, s.thread.taken, s.thread.limit))
    case Handed(ok) =>
      var s' := s.(handed := s.handed + [s.thread.item]);
      if ok then s'.(thread := Looking) else s'.(stopped := true, thread := Ended, queue := [])
  }

  ghost predicate Run(s: State, actions: seq<Action>, t: State)
    decreases |actions|
  {
    if actions == [] then s == t
    else Enabled(s, actions[0]) && Run(Exec(s, actions[0]), actions[1..], t)
  }

  function Start(delay: int, firstAsap: bool): State {
    State(delay, firstAsap, CLOCK_START, [], false, Looking, [], [], [], [])
  }

  // ----- The regulator object -----

  /** The regulator; each method is a critical section. */
  class Regulator {
    const delay: int
    const firstAsap: bool
    const clock: Clock
    var queue: seq<Item>
    var stopped: bool
    var thread: Thread
    // History
    ghost var differences: seq<int>
    ghost var queued: seq<Item>
    ghost var handed: seq<Item>
    ghost var direct: seq<Item>

    ghost function View(): State
      reads this, clock
    {
      State(delay, firstAsap, clock.View(), queue, stopped, thread, differences, queued, handed, direct)
    }

    constructor (d: int, asap: bool)
      requires d > 0
      ensures fresh(clock) && View() == Start(d, asap)
    {
      delay, firstAsap := d, asap;
      clock := new Clock();
      queue, stopped, thread := [], false, Looking;
      differences, queued, handed, direct := [], [], [], [];
    }

    /** A new frame; says whether it was accepted, and whether it has to be handed
        on at once. */
    method SinkPush(f: Item, now: int) returns (ok: bool, asap: bool)
      requires f.Frame?
      modifies `queue, `differences, `queued, `direct, clock
      ensures View() == Exec(old(View()), PushFrame(f, now))
      ensures ok == !stopped && (asap <==> direct != old(direct))
    {
      if stopped {
        return false, false;
      }
      clock.Update(now, f.pts);
      differences := differences + [now - f.pts];
      if firstAsap && clock.range == 1 {
        direct := direct + [f];
        return true, true;
      }
      queue, queued := queue + [f], queued + [f];
      return true, false;
    }

    method SinkPushSession(k: Item) returns (ok: bool)
      requires k.Session?
      modifies `queue, `queued
      ensures View() == Exec(old(View()), PushSession(k)) && ok == !stopped
    {
      if stopped {
        return false;
      }
      queue, queued := queue + [k], queued + [k];
      return true;
    }

    method SinkClose()
      modifies `stopped
      ensures View() == Exec(old(View()), Close)
    {
      stopped := true;
    }

    /** Takes the next item once there is one. */
    method TakeNext(now: int)
      requires Enabled(View(), Take(now))
      modifies `queue, `thread
      ensures View() == Exec(old(View()), Take(now))
    {
      if stopped {
        queue, thread := [], Ended;
        return;
      }
      var item := queue[0];
      queue := queue[1..];
      thread := if item.Frame? then Holding(item, now, now + delay) else Handing(item);
    }

    /** Computes how long the held frame may wait. The code asserts that the clock
        was updated. */
    method ComputeDeadline()
      requires thread.Holding? && thread.item.Frame? && clock.range > 0
      modifies `queue, `thread
      ensures View() == Exec(old(View()), Schedule)
    {
      if stopped {
        queue, thread := [], Ended;
        return;
      }
      var deadline := clock.ToSystemTime(thread.item.pts) + delay;
      if deadline > thread.limit {
        deadline := thread.limit;
      }
      thread := Waiting(thread.item, thread.taken, thread.limit, deadline);
    }

    /** The wait ended, by the deadline or by a signal. */
    method WaitEnded(timedOut: bool)
      requires thread.Waiting?
      modifies `queue, `thread
      ensures View() == Exec(old(View()), if timedOut then TimedOut else Woken)
    {
      if !timedOut {
        thread := Holding(thread.item, thread.taken, thread.limit);
      } else if stopped {
        queue, thread := [], Ended;
      } else {
        thread := Handing(thread.item);
      }
    }

    method HandedOn(ok: bool)
      requires thread.Handing?
      modifies `queue, `thread, `stopped, `handed
      ensures View() == Exec(old(View()), Handed(ok))
    {
      handed := handed + [thread.item];
      if ok {
        thread := Looking;
      } else {
        stopped, queue, thread := true, [], Ended;
      }
    }
  }

  // ----- The invariant -----

  /** The item in the hands of the thread. */
  ghost function InHand(t: Thread): seq<Item> {
    if t.Holding? || t.Waiting? || t.Handing? then [t.item] else []
  }

  /** Queued items are handed on, in hand or queued, in push order; when the thread
      ended, what was handed on is still a prefix. */
  ghost predicate OrderInv(queued: seq<Item>, handed: seq<Item>, thread: Thread, queue: seq<Item>) {
    if thread.Ended? then handed <= queued
    else queued == handed + InHand(thread) + queue
  }

  /** The frames among some items. */
  ghost function Frames(items: seq<Item>): seq<Item> {
    if items == [] then []
    else Frames(items[..|items| - 1]) + (if items[|items| - 1].Frame? then [items[|items| - 1]] else [])
  }

  lemma FramesAppend(items: seq<Item>, item: Item)
    ensures Frames(items + [item]) == Frames(items) + (if item.Frame? then [item] else [])
  {
    assert (items + [item])[..|items|] == items;
  }

  /** The clock was updated before any frame was queued, and once for every frame:
      each frame was queued, except the first one when it has to be handed on at
      once. */
  ghost predicate ClockInv(s: State) {
    && s.clock == ObserveAll(s.differences)
    && ((exists i :: 0 <= i < |s.queued| && s.queued[i].Frame?) ==> s.differences != [])
    && |s.direct| <= 1 && (s.direct != [] <==> s.firstAsap && s.differences != [])
    && |Frames(s.queued)| + |s.direct| == |s.differences|
  }

  /** No frame waits longer than the delay. */
  ghost predicate DeadlineInv(s: State) {
    && !s.thread.Crashed?
    && (s.thread.Holding? || s.thread.Waiting? ==>
          s.thread.item.Frame? && s.thread.limit == s.thread.taken + s.delay)
    && (s.thread.Waiting? ==> s.thread.deadline <= s.thread.limit)
  }

  ghost predicate Inv(s: State) {
    && OrderInv(s.queued, s.handed, s.thread, s.queue)
    && ClockInv(s)
    && DeadlineInv(s)
  }

  lemma QueueGrows(queued: seq<Item>, handed: seq<Item>, thread: Thread, queue: seq<Item>, item: Item)
    requires OrderInv(queued, handed, thread, queue)
    ensures OrderInv(queued + [item], handed, thread, queue + [item])
  {
  }

  /** Only the first observation makes the range one. */
  lemma ObserveNext(ds: seq<int>, difference: int)
    ensures var c := Observe(ObserveAll(ds), difference);
            ObserveAll(ds + [difference]) == c && (c.range == 1 <==> ds == [])
  {
    var more := ds + [difference];
    assert more[..|more| - 1] == ds;
    ObservedRange(ds);
  }

  lemma PushKeepsInv(s: State, a: Action)
    requires Inv(s) && Enabled(s, a) && !s.stopped && (a.PushFrame? || a.PushSession?)
    ensures Inv(Exec(s, a))
  {
    hide OrderInv, Observe, ObserveAll, Frames;
    FramesAppend(s.queued, if a.PushFrame? then a.f else a.s);
    if a.PushFrame? {
      ObserveNext(s.differences, a.now - a.f.pts);
      QueueGrows(s.queued, s.handed, s.thread, s.queue, a.f);
    } else {
      QueueGrows(s.queued, s.handed, s.thread, s.queue, a.s);
      var t := Exec(s, a);
      forall i | 0 <= i < |t.queued| && t.queued[i].Frame? ensures s.differences != [] {
        assert s.queued[i].Frame?;
      }
    }
  }

  lemma TakeKeepsInv(s: State, now: int)
    requires Inv(s) && Enabled(s, Take(now))
    ensures Inv(TakeItem(s, now))
  {
    hide Observe, ObserveAll, Frames;
    if !s.stopped {
      assert s.queue == [s.queue[0]] + s.queue[1..];
    }
  }

  lemma ScheduleKeepsInv(s: State)
    requires Inv(s) && s.thread.Holding?
    ensures Inv(ScheduleItem(s))
  {
    hide Observe, Frames;
    assert s.queued[|s.handed|] == s.thread.item;
    ObservedRange(s.differences);
  }

  lemma ObservedRange(ds: seq<int>)
    ensures ds != [] ==> ObserveAll(ds).range > 0
  {
  }

  lemma ExecKeepsInv(s: State, a: Action)
    requires Inv(s) && Enabled(s, a)
    ensures Inv(Exec(s, a))
  {
    hide Observe, ObserveAll, Frames;
    match a
    case PushFrame(_, _) =>
      if !s.stopped {
        PushKeepsInv(s, a);
      }
    case PushSession(_) =>
      if !s.stopped {
        PushKeepsInv(s, a);
      }
    case Take(now) => TakeKeepsInv(s, now);
    case Schedule => ScheduleKeepsInv(s);
    case Close =>
    case TimedOut =>
    case Woken =>
    case Handed(_) =>
  }

  lemma {:induction false} RunKeepsInv(s: State, actions: seq<Action>, t: State)
    requires Inv(s) && Run(s, actions, t)
    ensures Inv(t) && t.delay == s.delay && t.firstAsap == s.firstAsap
    decreases |actions|
  {
    hide Inv;
    if actions != [] {
      ExecKeepsInv(s, actions[0]);
      RunKeepsInv(Exec(s, actions[0]), actions[1..], t);
    }
  }

  // ----- What holds in every reachable state -----

  /** Main theorem: queued frames and sessions leave in push order, and at most one
      frame skips the queue; the clock is
      read only after it was updated; and the deadline of a waiting frame is at
      most the delay after the frame was taken, and otherwise lies between the
      extreme differences the clock observed. */
  lemma RegulatorSafety(delay: int, asap: bool, actions: seq<Action>, t: State, lo: int, hi: int)
    requires Run(Start(delay, asap), actions, t) && AllWithin(t.differences, lo, hi)
    ensures t.handed <= t.queued
    ensures !t.thread.Crashed?
    ensures t.delay == delay
    ensures |t.direct| == (if asap && t.differences != [] then 1 else 0)
    ensures |Frames(t.queued)| + |t.direct| == |t.differences|
    ensures t.thread.Waiting? ==> t.thread.deadline <= t.thread.taken + delay
    ensures t.thread.Holding? ==>
              var w := ScheduleItem(t).thread;
              w.Waiting? ==>
                && w.deadline <= t.thread.item.pts + hi + t.delay
                && (w.deadline >= t.thread.item.pts + lo + t.delay || w.deadline == w.taken + t.delay)
  {
    hide Run, Observe, ObserveAll, Frames;
    RunKeepsInv(Start(delay, asap), actions, t) by {
      StartInv(delay, asap);
    }
    if t.thread.Holding? {
      assert t.queued[|t.handed|] == t.thread.item;
      OffsetWithin(t.differences, lo, hi);
    }
  }

  lemma StartInv(delay: int, asap: bool)
    ensures Inv(Start(delay, asap))
  {
  }

  /** A frame taken from the queue waits for at most the delay from then on; a session
      does not wait. */
  lemma TakeSetsLimit(s: State, now: int)
    requires Enabled(s, Take(now)) && !s.stopped
    ensures var t := Exec(s, Take(now));
            && t.queue == s.queue[1..] && t.handed == s.handed
            && t.thread == if s.queue[0].Frame? then Holding(s.queue[0], now, now + s.delay) else Handing(s.queue[0])
  {
  }

  /** A signal does not end the wait of a frame: its deadline is computed anew. */
  lemma SignalRecomputes(s: State)
    requires s.thread.Waiting?
    ensures Exec(s, Woken) == s.(thread := Holding(s.thread.item, s.thread.taken, s.thread.limit))
  {
  }

  /** Unless stopped, a session is queued, and so is a frame, except the very first
      one when it has to be handed on at once. */
  lemma Accepts(s: State, f: Item, k: Item, now: int)
    requires Inv(s) && !s.stopped && f.Frame? && k.Session?
    ensures Exec(s, PushSession(k)) == s.(queue := s.queue + [k], queued := s.queued + [k])
    ensures var t := Exec(s, PushFrame(f, now));
            && t.differences == s.differences + [now - f.pts]
            && (if s.firstAsap && s.differences == [] then t.queue == s.queue && t.direct == s.direct + [f]
                else t.queue == s.queue + [f] && t.direct == s.direct)
  {
    hide Observe, ObserveAll, Frames, OrderInv;
    ObserveNext(s.differences, now - f.pts);
  }

  /** A stop discards what is queued; a sink that refuses an item stops the
      regulator. */
  lemma StopDiscards(s: State, a: Action)
    requires Enabled(s, a)
    ensures s.stopped && (a.Take? || a.Schedule? || a.TimedOut?) ==>
              Exec(s, a).thread.Ended? && Exec(s, a).queue == [] && Exec(s, a).handed == s.handed
    ensures s.stopped && (a.PushFrame? || a.PushSession?) ==> Exec(s, a) == s
    ensures a == Handed(false) ==> Exec(s, a).stopped && Exec(s, a).thread.Ended? && Exec(s, a).queue == []
    ensures a.Close? ==> Exec(s, a).stopped
  {
  }

  // ----- Nothing queued is left behind -----

  predicate Rests(s: State) {
    s.thread.Ended? || s.thread.Crashed? || (s.thread.Looking? && !s.stopped && s.queue == [])
  }

  /** What the thread does next when its sinks work and every wait times out. */
  function ThreadNext(t: Thread): Action
    requires !t.Ended? && !t.Crashed?
  {
    match t
    case Looking => Take(0)
    case Holding(_, _, _) => Schedule
    case Waiting(_, _, _, _) => TimedOut
    case Handing(_) => Handed(true)
  }

  /** An upper bound of the thread's steps. */
  function Work(s: State): nat {
    5 * |s.queue| +
    match s.thread
    case Looking => 1
    case Holding(_, _, _) => 4
    case Waiting(_, _, _, _) => 3
    case Handing(_) => 2
    case _ => 0
  }

  lemma ThreadWorks(s: State)
    requires Inv(s) && !s.stopped && !Rests(s)
    ensures var a := ThreadNext(s.thread);
            && Enabled(s, a)
            && var t := Exec(s, a); Work(t) < Work(s) && !t.stopped && t.queued == s.queued
  {
    hide ObserveAll, Observe, Frames;
    if s.thread.Holding? {
      ScheduleKeepsInv(s);
    }
  }

  lemma {:induction false} ThreadRests(s: State) returns (more: seq<Action>, u: State)
    requires Inv(s) && !s.stopped && !s.thread.Ended?
    ensures Run(s, more, u) && |more| <= Work(s)
    ensures Inv(u) && u.thread.Looking? && u.queue == [] && u.queued == s.queued
    decreases Work(s)
  {
    hide Inv, Exec, Work;
    if Rests(s) {
      NotCrashed(s);
      return [], s;
    }
    var a := ThreadNext(s.thread);
    ThreadWorks(s);
    ExecKeepsInv(s, a);
    StepGoesOn(s);
    var rest;
    rest, u := ThreadRests(Exec(s, a));
    more := [a] + rest;
    assert more[1..] == rest;
  }

  lemma NotCrashed(s: State)
    requires Inv(s)
    ensures !s.thread.Crashed?
  {
  }

  lemma StepGoesOn(s: State)
    requires Inv(s) && !s.stopped && !Rests(s) && Enabled(s, ThreadNext(s.thread))
    ensures !Exec(s, ThreadNext(s.thread)).thread.Ended?
  {
    hide ObserveAll, Observe, Frames;
  }

  /** Main theorem on progress: from every reachable state, unless it is stopped, the
      thread alone hands on everything that is queued within a bounded number of
      steps, when its sinks work. */
  lemma HandsOnEverything(delay: int, asap: bool, actions: seq<Action>, t: State)
      returns (more: seq<Action>, u: State)
    requires Run(Start(delay, asap), actions, t) && !t.stopped && !t.thread.Ended?
    ensures Run(t, more, u) && |more| <= Work(t)
    ensures u.handed == t.queued == u.queued && u.queue == []
  {
    hide Run, Inv, Work;
    RunKeepsInv(Start(delay, asap), actions, t) by {
      StartInv(delay, asap);
    }
    more, u := ThreadRests(t);
    AllHanded(u);
  }

  lemma AllHanded(u: State)
    requires Inv(u) && u.thread.Looking? && u.queue == []
    ensures u.handed == u.queued
  {
    hide ObserveAll, Frames;
  }
}
