/** The audio regulator as two threads over shared memory. Every shared access
    (a cursor load, the copy of one sample, a cursor store, a mutex operation,
    the `played` flag) is a step of its own, so cursors may be stale. The
    producer owns `head`; `tail` moves only under the mutex, by the player or,
    when old samples must be dropped, by the producer. */
module AudioInterleaving {
  import opened Common
  import opened RingMath
  import opened AudioBuf
  import opened AudioRegulator

  // ----- Shared memory -----

  /** What happened to the samples, in order: taken out by the player, dropped by
      the producer, or silence handed to the player. */
  datatype Event = Played(s: seq<Sample>) | Dropped(s: seq<Sample>) | Silence(n: nat)

  /** The ring, with the history of what went through it. */
  datatype Mem = Mem(
    alloc: nat, target: nat, rate: nat,
    cells: seq<Sample>, head: nat, tail: nat,
    hist: seq<Sample>, // every sample ever published, oldest first
    taken: nat,        // how many of them were taken out
    log: seq<Event>)

  function CopyCell(m: Mem, h: nat, k: nat, x: Sample): Mem
    requires h < m.alloc && k <= m.alloc == |m.cells|
  {
    m.(cells := m.cells[Cell(m.alloc, h, k) := x])
  }

  function Publish(m: Mem, h: nat, s: seq<Sample>): Mem
    requires m.alloc > 0
  {
    m.(head := Advance(m.alloc, h, |s|), hist := m.hist + s)
  }

  function TakeOut(m: Mem, t: nat, n: nat, e: Event): Mem
    requires m.alloc > 0
  {
    m.(tail := Advance(m.alloc, t, n), taken := m.taken + n, log := m.log + [e])
  }

  /** The `n` oldest samples not taken out yet (history only). */
  function Oldest(m: Mem, n: nat): seq<Sample> {
    if m.taken + n <= |m.hist| then m.hist[m.taken..m.taken + n] else []
  }

  function Used(m: Mem): int {
    |m.hist| - m.taken
  }

  ghost function Taken(log: seq<Event>): seq<Sample> {
    if log == [] then []
    else Taken(log[..|log| - 1]) + TakenBy(log[|log| - 1])
  }

  ghost function TakenBy(e: Event): seq<Sample> {
    if e.Silence? then [] else e.s
  }

  /** The unread cells hold exactly the published samples not taken out. */
  ghost predicate RingInv(m: Mem) {
    && SizesOk(m.target, m.rate) && m.alloc == m.target + m.rate + 1
    && |m.cells| == m.alloc && m.head < m.alloc && m.tail < m.alloc
    && 0 <= Used(m) < m.alloc
    && m.head == Cell(m.alloc, m.tail, Used(m))
    && Window(m.cells, m.tail, Used(m)) == m.hist[m.taken..]
  }

  /** What was played and dropped, in order, is the beginning of what was
      written. */
  ghost predicate LogInv(m: Mem) {
    m.taken <= |m.hist| && Taken(m.log) == m.hist[..m.taken]
  }

  ghost predicate MemInv(m: Mem) {
    RingInv(m) && LogInv(m)
  }

  /** The counts computed from an up-to-date pair of cursors. */
  lemma UsedCounts(m: Mem)
    requires RingInv(m)
    ensures CanRead(m.alloc, m.head, m.tail) == Used(m)
    ensures CanWrite(m.alloc, m.head, m.tail) == m.alloc - 1 - Used(m)
  {
    CountsExact(m.alloc, m.head, m.tail);
  }

  /** Copying a sample into a free cell leaves every unread cell alone. */
  lemma CopyKeepsMem(m: Mem, k: nat, x: Sample)
    requires MemInv(m) && Used(m) + k < m.alloc - 1
    ensures var m' := CopyCell(m, m.head, k, x);
            && MemInv(m')
            && (forall i :: 0 <= i < Used(m) ==> Cell(m.alloc, m.tail, i) != Cell(m.alloc, m.head, k))
            && (forall j :: 0 <= j < k ==> m'.cells[Cell(m.alloc, m.head, j)] == m.cells[Cell(m.alloc, m.head, j)])
            && m'.cells[Cell(m.alloc, m.head, k)] == x
  {
    var m' := CopyCell(m, m.head, k, x);
    var w, w' := Window(m.cells, m.tail, Used(m)), Window(m'.cells, m'.tail, Used(m'));
    forall i | 0 <= i < Used(m) ensures w'[i] == w[i] {
      assert Cell(m.alloc, m.tail, i) != Cell(m.alloc, m.head, k);
    }
    assert w' == w;
  }

  /** Publishing copied samples appends them to the published history. */
  lemma PublishKeepsMem(m: Mem, s: seq<Sample>)
    requires MemInv(m) && Used(m) + |s| < m.alloc
    requires forall j :: 0 <= j < |s| ==> m.cells[Cell(m.alloc, m.head, j)] == s[j]
    ensures var m' := Publish(m, m.head, s);
            MemInv(m') && Used(m') == Used(m) + |s|
  {
    hide Taken, Window;
    AdvanceExact(m.alloc, m.head, |s|);
    var m' := Publish(m, m.head, s);
    WindowExtends(m.cells, m.tail, Used(m), s);
    assert m'.hist[m'.taken..] == m.hist[m.taken..] + s;
    assert m'.hist[..m'.taken] == m.hist[..m.taken];
  }

  /** Taking out the oldest samples moves the front of the window. */
  lemma TakeKeepsMem(m: Mem, n: nat, e: Event)
    requires MemInv(m) && n <= Used(m)
    requires TakenBy(e) == m.hist[m.taken..m.taken + n]
    ensures var m' := TakeOut(m, m.tail, n, e);
            MemInv(m') && Used(m') == Used(m) - n
  {
    hide Window;
    AdvanceExact(m.alloc, m.tail, n);
    var m' := TakeOut(m, m.tail, n, e);
    assert Taken(m'.log) == m'.hist[..m'.taken] by {
      assert m'.log[..|m.log|] == m.log;
      assert m.hist[..m.taken] + m.hist[m.taken..m.taken + n] == m.hist[..m.taken + n];
    }
    WindowDrop(m.cells, m.tail, Used(m), n);
    assert m.hist[m.taken..][n..] == m.hist[m'.taken..];
  }

  lemma SilenceKeepsMem(m: Mem, n: nat)
    requires MemInv(m)
    ensures MemInv(m.(log := m.log + [Silence(n)]))
  {
    assert (m.log + [Silence(n)])[..|m.log|] == m.log;
  }

  // ----- The producer -----

  datatype Mutex = Free | PushHolds | PullHolds

  /** The writes of one push: silence on a gap, the frame without the lock, the
      retry with the lock, and the rest once room was made. */
  datatype Stage = Gap | First | Retry | Rest

  /** Why push asks for the readable count. */
  datatype Query = ForGap(input: nat) | ForCheck(p: bool) | ForTrim(p: bool)

  /** Why push discards samples: to write `rest`, or to enforce the bound. */
  datatype Reason = MakeRoom(rest: seq<Sample>) | Enforce(p: bool)

  datatype PushPc =
    | PIdle
    | QueryHead(q: Query)
    | QueryTail(q: Query, h: nat)
    | Convert
    | WriteHead(st: Stage, data: seq<Sample>)
    | WriteTail(st: Stage, data: seq<Sample>, h: nat)
    | WriteCopy(st: Stage, data: seq<Sample>, h: nat, n: nat, k: nat)
    | LockRetry(rest: seq<Sample>)
    | UnlockRetry
    | DropTail(why: Reason, want: nat)
    | DropHead(why: Reason, want: nat, t: nat)
    | DropStore(why: Reason, want: nat, t: nat, n: nat)
    | UnlockRoom(rest: seq<Sample>)
    | LoadPlayed
    | LockTrim(p: bool)
    | UnlockTrim(p: bool)
    | PReturned(p: bool)
    | PFailed
    | PCrashed

  datatype PullPc =
    | LIdle
    | LockPull(n: nat)
    | LoadFlag(n: nat)
    | StartHead(n: nat)
    | StartTail(n: nat, h: nat)
    | UnlockSilent(n: nat)
    | ReadTail(n: nat)
    | ReadHead(n: nat, t: nat)
    | ReadCopy(n: nat, t: nat, m: nat, got: seq<Sample>)
    | UnlockPull(n: nat, got: seq<Sample>)
    | StoreFlag(n: nat, got: seq<Sample>)

  datatype State = State(
    m: Mem, mutex: Mutex, played: bool, push: PushPc, pull: PullPc,
    given: seq<Sample>) // every sample push decided to buffer (history only)

  function Bound(m: Mem, p: bool): nat {
    MaxBuffered(m.target, m.rate, p)
  }

  /** Push continues once the readable count `c` is known. */
  function Answer(m: Mem, q: Query, c: nat): PushPc {
    match q
    case ForGap(input) =>
      if input + c < m.target then WriteHead(Gap, seq(m.target - c - input, _ => SILENCE)) else Convert
    case ForCheck(p) =>
      if c > Bound(m, p) then LockTrim(p) else PReturned(p)
    case ForTrim(p) =>
      if c > Bound(m, p) then DropTail(Enforce(p), c - Bound(m, p)) else UnlockTrim(p)
  }

  /** Push continues after writing `n` samples of `data`. */
  function Wrote(st: Stage, data: seq<Sample>, n: nat): PushPc
    requires n <= |data|
  {
    match st
    case Gap => Convert
    case First => if n < |data| then LockRetry(data[n..]) else LoadPlayed
    case Retry => if n < |data| then DropTail(MakeRoom(data[n..]), |data| - n) else UnlockRetry
    case Rest => if n == |data| then LoadPlayed else PCrashed
  }

  /** Push continues after discarding `n` samples where it wanted `want`. */
  function Discarded(why: Reason, want: nat, n: nat): PushPc {
    if n != want then PCrashed
    else if why.MakeRoom? then UnlockRoom(why.rest)
    else UnlockTrim(why.p)
  }

  predicate Between(pc: PushPc) {
    pc.PIdle? || pc.PReturned? || pc.PFailed?
  }

  predicate PushEnabled(s: State) {
    && !Between(s.push) && !s.push.Convert? && !s.push.PCrashed?
    && (s.push.LockRetry? || s.push.LockTrim? ==> s.mutex.Free?)
  }

  /** Indices in range; implied by the invariant. */
  predicate Shape(s: State) {
    && s.m.alloc == |s.m.cells| > 0
    && (s.push.WriteCopy? ==> s.push.k <= s.push.n <= |s.push.data| && s.push.n <= s.m.alloc && s.push.h < s.m.alloc)
    && (s.pull.ReadCopy? ==> |s.pull.got| <= s.pull.m <= s.m.alloc && s.pull.t < s.m.alloc)
    && (s.pull.StoreFlag? ==> |s.pull.got| <= s.pull.n)
  }

  function StepPush(s: State): State
    requires Shape(s) && PushEnabled(s)
  {
    var m := s.m;
    match s.push
    case QueryHead(q) => s.(push := QueryTail(q, m.head))
    case QueryTail(q, h) =>
      var pc := Answer(m, q, CanRead(m.alloc, h, m.tail));
      s.(push := pc, given := s.given + if pc.WriteHead? then pc.data else [])
    case WriteHead(st, data) => s.(push := WriteTail(st, data, m.head))
    case WriteTail(st, data, h) =>
      var room := CanWrite(m.alloc, h, m.tail);
      s.(push := if room == 0 then Wrote(st, data, 0) else WriteCopy(st, data, h, Min(|data|, room), 0))
    case WriteCopy(st, data, h, n, k) =>
      if k < n then s.(m := CopyCell(m, h, k, data[k]), push := WriteCopy(st, data, h, n, k + 1))
      else s.(m := Publish(m, h, data[..n]), push := Wrote(st, data, n))
    case LockRetry(rest) => s.(mutex := PushHolds, push := WriteHead(Retry, rest))
    case UnlockRetry => s.(mutex := Free, push := LoadPlayed)
    case DropTail(why, want) => s.(push := DropHead(why, want, m.tail))
    case DropHead(why, want, t) =>
      var c := CanRead(m.alloc, m.head, t);
      s.(push := if c == 0 then Discarded(why, want, 0) else DropStore(why, want, t, Min(want, c)))
    case DropStore(why, want, t, n) =>
      s.(m := TakeOut(m, t, n, Dropped(Oldest(m, n))), push := Discarded(why, want, n))
    case UnlockRoom(rest) => s.(mutex := Free, push := WriteHead(Rest, rest))
    case LoadPlayed => s.(push := QueryHead(ForCheck(s.played)))
    case LockTrim(p) => s.(mutex := PushHolds, push := QueryHead(ForTrim(p)))
    case UnlockTrim(p) => s.(mutex := Free, push := PReturned(p))
  }

  /** A resampled frame, clipped to the size of the ring. */
  function Clip(m: Mem, frame: seq<Sample>): seq<Sample>
    requires m.alloc > 0
  {
    if |frame| > m.alloc - 1 then frame[|frame| - (m.alloc - 1)..] else frame
  }

  // ----- The player -----

  predicate PullEnabled(s: State) {
    !s.pull.LIdle? && (s.pull.LockPull? ==> s.mutex.Free?)
  }

  function StepPull(s: State): State
    requires Shape(s) && PullEnabled(s)
  {
    var m := s.m;
    match s.pull
    case LockPull(n) => s.(mutex := PullHolds, pull := LoadFlag(n))
    case LoadFlag(n) => s.(pull := if s.played then ReadTail(n) else StartHead(n))
    case StartHead(n) => s.(pull := StartTail(n, m.head))
    case StartTail(n, h) =>
      s.(pull := if CanRead(m.alloc, h, m.tail) < m.target then UnlockSilent(n) else ReadTail(n))
    case UnlockSilent(n) =>
      s.(m := m.(log := m.log + [Silence(n)]), mutex := Free, pull := LIdle)
    case ReadTail(n) => s.(pull := ReadHead(n, m.tail))
    case ReadHead(n, t) =>
      var c := CanRead(m.alloc, m.head, t);
      s.(pull := if c == 0 then UnlockPull(n, []) else ReadCopy(n, t, Min(n, c), []))
    case ReadCopy(n, t, c, got) =>
      if |got| < c then s.(pull := ReadCopy(n, t, c, got + [m.cells[Cell(m.alloc, t, |got|)]]))
      else s.(m := TakeOut(m, t, c, Played(got)), pull := UnlockPull(n, got))
    case UnlockPull(n, got) => s.(mutex := Free, pull := StoreFlag(n, got))
    case StoreFlag(n, got) =>
      s.(m := m.(log := m.log + [Silence(n - |got|)]), played := true, pull := LIdle)
  }

  // ----- Runs -----

  datatype Action =
    | BeginPush(gap: bool, input: nat)
    | Converted(r: Option<seq<Sample>>)
    | PushStep
    | BeginPull(n: nat)
    | PullStep

  ghost predicate Init(s: State) {
    && SizesOk(s.m.target, s.m.rate) && s.m.alloc == s.m.target + s.m.rate + 1
    && |s.m.cells| == s.m.alloc && s.m.head == 0 && s.m.tail == 0
    && s.m.hist == [] && s.m.taken == 0 && s.m.log == []
    && s.mutex.Free? && !s.played && s.push.PIdle? && s.pull.LIdle? && s.given == []
  }

  ghost predicate Enabled(s: State, a: Action) {
    && Shape(s)
    && match a
       case BeginPush(_, _) => Between(s.push)
       case Converted(_) => s.push.Convert?
       case PushStep => PushEnabled(s)
       case BeginPull(n) => s.pull.LIdle? && n > 0
       case PullStep => PullEnabled(s)
  }

  ghost function Exec(s: State, a: Action): State
    requires Enabled(s, a)
  {
    match a
    case BeginPush(gap, input) => s.(push := if gap then QueryHead(ForGap(input)) else Convert)
    case Converted(r) =>
      if r.None? then s.(push := PFailed)
      else
        var frame := Clip(s.m, r.value);
        s.(push := WriteHead(First, frame), given := s.given + frame)
    case PushStep => StepPush(s)
    case BeginPull(n) => s.(pull := LockPull(n))
    case PullStep => StepPull(s)
  }

  ghost predicate Run(s: State, actions: seq<Action>, t: State)
    decreases |actions|
  {
    if actions == [] then s == t
    else Enabled(s, actions[0]) && Run(Exec(s, actions[0]), actions[1..], t)
  }

  // ----- The invariant -----

  predicate PushLocked(pc: PushPc) {
    || ((pc.QueryHead? || pc.QueryTail?) && pc.q.ForTrim?)
    || ((pc.WriteHead? || pc.WriteTail? || pc.WriteCopy?) && pc.st.Retry?)
    || pc.UnlockRetry? || pc.DropTail? || pc.DropHead? || pc.DropStore?
    || pc.UnlockRoom? || pc.UnlockTrim?
  }

  predicate PullLocked(pc: PullPc) {
    !pc.LIdle? && !pc.LockPull? && !pc.StoreFlag?
  }

  ghost predicate MutexInv(mutex: Mutex, push: PushPc, pull: PullPc) {
    && (PushLocked(push) <==> mutex.PushHolds?)
    && (PullLocked(pull) <==> mutex.PullHolds?)
  }

  /** Facts about a write of `data` at stage `st`, before its room is known. */
  ghost predicate WriteInv(m: Mem, st: Stage, data: seq<Sample>) {
    && |data| < m.alloc
    && (st.Rest? || st.Gap? ==> Used(m) + |data| < m.alloc)
  }

  ghost predicate CopyInv(m: Mem, st: Stage, data: seq<Sample>, n: nat, k: nat)
    requires RingInv(m)
  {
    && k <= n <= |data| && Used(m) + n < m.alloc
    && (st.Rest? || st.Gap? ==> n == |data|)
    && (st.Retry? && n < |data| ==> Used(m) + n == m.alloc - 1)
    && (forall j :: 0 <= j < k ==> m.cells[Cell(m.alloc, m.head, j)] == data[j])
  }

  ghost predicate DropInv(m: Mem, why: Reason, want: nat) {
    && 0 < want <= Used(m)
    && match why
       case MakeRoom(rest) => want == |rest| && Used(m) == m.alloc - 1
       case Enforce(p) => want == Used(m) - Bound(m, p)
  }

  ghost predicate PushInv(m: Mem, pc: PushPc)
    requires RingInv(m)
  {
    match pc
    case QueryTail(q, h) => h == m.head
    case WriteHead(st, data) => WriteInv(m, st, data)
    case WriteTail(st, data, h) => h == m.head && WriteInv(m, st, data)
    case WriteCopy(st, data, h, n, k) => h == m.head && WriteInv(m, st, data) && CopyInv(m, st, data, n, k)
    case LockRetry(rest) => |rest| < m.alloc
    case DropTail(why, want) => DropInv(m, why, want)
    case DropHead(why, want, t) => t == m.tail && DropInv(m, why, want)
    case DropStore(why, want, t, n) => t == m.tail && n == want && DropInv(m, why, want)
    case UnlockRoom(rest) => Used(m) + |rest| < m.alloc
    case UnlockTrim(p) => Used(m) <= Bound(m, p)
    case PReturned(p) => Used(m) <= Bound(m, p)
    case PCrashed => false
    case _ => true
  }

  ghost predicate PullInv(m: Mem, pc: PullPc)
    requires RingInv(m)
  {
    match pc
    case ReadHead(n, t) => t == m.tail
    case ReadCopy(n, t, c, got) =>
      t == m.tail && |got| <= c <= Used(m) && c <= n && got == m.hist[m.taken..m.taken + |got|]
    case UnlockPull(n, got) => |got| <= n
    case StoreFlag(n, got) => |got| <= n
    case _ => true
  }

  /** The samples push still has to publish. */
  ghost function Pending(pc: PushPc): seq<Sample> {
    match pc
    case WriteHead(_, data) => data
    case WriteTail(_, data, _) => data
    case WriteCopy(_, data, _, _, _) => data
    case LockRetry(rest) => rest
    case DropTail(why, _) => PendingReason(why)
    case DropHead(why, _, _) => PendingReason(why)
    case DropStore(why, _, _, _) => PendingReason(why)
    case UnlockRoom(rest) => rest
    case _ => []
  }

  ghost function PendingReason(why: Reason): seq<Sample> {
    if why.MakeRoom? then why.rest else []
  }

  /** No sample is lost, repeated or reordered on its way into the ring. */
  ghost predicate FlowInv(s: State) {
    s.given == s.m.hist + Pending(s.push)
  }

  ghost predicate Inv(s: State) {
    && FlowInv(s)
    && MemInv(s.m)
    && MutexInv(s.mutex, s.push, s.pull)
    && PushInv(s.m, s.push)
    && PullInv(s.m, s.pull)
  }

  // ----- Interference -----

  /** What the player knows survives the producer's copies and publications. */
  lemma PullUnderWrite(m: Mem, m': Mem, pc: PullPc)
    requires RingInv(m) && RingInv(m') && PullInv(m, pc)
    requires m.tail == m'.tail && m.taken == m'.taken && m.hist <= m'.hist
    ensures PullInv(m', pc)
  {
    if pc.ReadCopy? {
      var e := m.taken + |pc.got|;
      assert m'.hist[m.taken..e] == m.hist[m.taken..e];
    }
  }

  /** What the producer knows survives the player taking samples out, which it
      can only do while the producer does not hold the mutex. */
  lemma PushUnderTake(m: Mem, m': Mem, pc: PushPc)
    requires RingInv(m) && RingInv(m') && PushInv(m, pc) && !PushLocked(pc)
    requires m' == m.(tail := m'.tail, taken := m'.taken, log := m'.log) && m'.taken >= m.taken
    ensures PushInv(m', pc)
  {
  }

  // ----- Every step keeps the invariant -----

  lemma WriteTailStep(s: State)
    requires Inv(s) && Shape(s) && PushEnabled(s) && s.push.WriteTail?
    ensures Inv(StepPush(s))
  {
    hide Window, Taken, CanRead, CanWrite, MaxBuffered;
    UsedCounts(s.m);
  }

  lemma CopyOneStep(s: State)
    requires Inv(s) && Shape(s) && PushEnabled(s) && s.push.WriteCopy? && s.push.k < s.push.n
    ensures Inv(StepPush(s))
  {
    var t := StepPush(s);
    CopyKeepsMem(s.m, s.push.k, s.push.data[s.push.k]);
    PullUnderWrite(s.m, t.m, s.pull);
  }

  lemma PublishStep(s: State)
    requires Inv(s) && Shape(s) && PushEnabled(s) && s.push.WriteCopy? && s.push.k == s.push.n
    ensures Inv(StepPush(s))
  {
    hide Window, Taken, CanRead, CanWrite, MaxBuffered, Advance;
    var t := StepPush(s);
    PublishKeepsMem(s.m, s.push.data[..s.push.n]);
    PullUnderWrite(s.m, t.m, s.pull);
  }

  lemma QueryTailStep(s: State)
    requires Inv(s) && Shape(s) && PushEnabled(s) && s.push.QueryTail?
    ensures Inv(StepPush(s))
  {
    hide Window, Taken, CanRead, CanWrite, MaxBuffered;
    UsedCounts(s.m);
  }

  lemma DropHeadStep(s: State)
    requires Inv(s) && Shape(s) && PushEnabled(s) && s.push.DropHead?
    ensures Inv(StepPush(s))
  {
    hide Window, Taken, CanRead, CanWrite, MaxBuffered;
    UsedCounts(s.m);
  }

  lemma DropStoreStep(s: State)
    requires Inv(s) && Shape(s) && PushEnabled(s) && s.push.DropStore?
    ensures Inv(StepPush(s))
  {
    TakeKeepsMem(s.m, s.push.n, Dropped(Oldest(s.m, s.push.n)));
  }

  lemma SimplePushStep(s: State)
    requires Inv(s) && Shape(s) && PushEnabled(s) && StepPush(s).m == s.m
    requires !s.push.QueryTail? && !s.push.WriteTail? && !s.push.WriteCopy? && !s.push.DropHead? && !s.push.DropStore?
    ensures Inv(StepPush(s))
  {
    hide Window, Taken, CanRead, CanWrite, MaxBuffered;
  }

  lemma PushKeepsInv(s: State)
    requires Inv(s) && Shape(s) && PushEnabled(s)
    ensures Inv(StepPush(s))
  {
    if s.push.QueryTail? {
      QueryTailStep(s);
    } else if s.push.WriteTail? {
      WriteTailStep(s);
    } else if s.push.WriteCopy? && s.push.k < s.push.n {
      CopyOneStep(s);
    } else if s.push.WriteCopy? {
      PublishStep(s);
    } else if s.push.DropHead? {
      DropHeadStep(s);
    } else if s.push.DropStore? {
      DropStoreStep(s);
    } else {
      SimplePushStep(s);
    }
  }

  lemma ReadHeadStep(s: State)
    requires Inv(s) && Shape(s) && PullEnabled(s) && s.pull.ReadHead?
    ensures Inv(StepPull(s))
  {
    hide Window, Taken, CanRead, CanWrite, MaxBuffered;
    UsedCounts(s.m);
  }

  lemma ReadOneStep(s: State)
    requires Inv(s) && Shape(s) && PullEnabled(s) && s.pull.ReadCopy? && |s.pull.got| < s.pull.m
    ensures Inv(StepPull(s))
  {
    var m, k := s.m, |s.pull.got|;
    assert m.cells[Cell(m.alloc, m.tail, k)] == Window(m.cells, m.tail, Used(m))[k] == m.hist[m.taken..][k];
    assert m.hist[m.taken..m.taken + k + 1] == m.hist[m.taken..m.taken + k] + [m.hist[m.taken + k]];
  }

  lemma ReadStoreStep(s: State)
    requires Inv(s) && Shape(s) && PullEnabled(s) && s.pull.ReadCopy? && |s.pull.got| == s.pull.m
    ensures Inv(StepPull(s))
  {
    TakeKeepsMem(s.m, s.pull.m, Played(s.pull.got));
    PushUnderTake(s.m, StepPull(s).m, s.push);
  }

  lemma EndOfPullStep(s: State)
    requires Inv(s) && Shape(s) && PullEnabled(s) && (s.pull.UnlockSilent? || s.pull.StoreFlag?)
    ensures Inv(StepPull(s))
  {
    hide RingInv, Taken;
    SilenceKeepsMem(s.m, if s.pull.StoreFlag? then s.pull.n - |s.pull.got| else s.pull.n);
  }

  lemma PullKeepsInv(s: State)
    requires Inv(s) && Shape(s) && PullEnabled(s)
    ensures Inv(StepPull(s))
  {
    if s.pull.ReadHead? {
      ReadHeadStep(s);
    } else if s.pull.ReadCopy? && |s.pull.got| < s.pull.m {
      ReadOneStep(s);
    } else if s.pull.ReadCopy? {
      ReadStoreStep(s);
    } else if s.pull.UnlockSilent? || s.pull.StoreFlag? {
      EndOfPullStep(s);
    }
  }

  lemma StepKeepsInv(s: State, a: Action)
    requires Inv(s) && Enabled(s, a)
    ensures Inv(Exec(s, a))
  {
    if a.PushStep? {
      PushKeepsInv(s);
    } else if a.PullStep? {
      PullKeepsInv(s);
    } else {
      hide RingInv, LogInv, Window, Taken, Used;
      assert Exec(s, a).m == s.m;
    }
  }

  lemma {:induction false} RunKeepsInv(s: State, actions: seq<Action>, t: State)
    requires Inv(s) && Run(s, actions, t)
    ensures Inv(t)
    decreases |actions|
  {
    hide Inv, Enabled, Exec;
    if actions != [] {
      var a := actions[0];
      StepKeepsInv(s, a);
      RunKeepsInv(Exec(s, a), actions[1..], t);
    }
  }

  // ----- What holds in every reachable state -----

  /** The cell push is about to overwrite. */
  ghost predicate Overwrites(s: State, c: nat)
    requires Shape(s)
  {
    s.push.WriteCopy? && s.push.k < s.push.n && c == Cell(s.m.alloc, s.push.h, s.push.k)
  }

  /** The cell pull is about to read. */
  ghost predicate Reads(s: State, c: nat)
    requires Shape(s)
  {
    s.pull.ReadCopy? && |s.pull.got| < s.pull.m && c == Cell(s.m.alloc, s.pull.t, |s.pull.got|)
  }

  /** A cell holding a published sample that was not taken out. */
  ghost predicate Unread(m: Mem, c: nat)
    requires RingInv(m)
  {
    exists i :: 0 <= i < Used(m) && c == Cell(m.alloc, m.tail, i)
  }

  /** Main theorem: in every interleaving, an unread cell is never overwritten,
      only unread cells are read, the three internal assertions hold, what was
      played and dropped is the beginning of what was written, and a push that
      succeeded left at most the bound selected by the flag it read. */
  lemma Safety(s: State, actions: seq<Action>, t: State)
    requires Init(s) && Run(s, actions, t)
    ensures RingInv(t.m) && Shape(t)
    ensures forall c :: Overwrites(t, c) ==> !Unread(t.m, c)
    ensures forall c :: Reads(t, c) ==> Unread(t.m, c)
    ensures !t.push.PCrashed?
    ensures t.m.taken <= |t.m.hist| && Taken(t.m.log) == t.m.hist[..t.m.taken]
    ensures t.given == t.m.hist + Pending(t.push)
    ensures t.push.PReturned? ==> |t.m.hist| - t.m.taken <= MaxBuffered(t.m.target, t.m.rate, t.push.p)
  {
    hide Window, MaxBuffered;
    RunKeepsInv(s, actions, t);
    forall c | Overwrites(t, c) ensures !Unread(t.m, c) {
      CopyKeepsMem(t.m, t.push.k, t.push.data[t.push.k]);
    }
    forall c | Reads(t, c) ensures Unread(t.m, c) {
      assert 0 <= |t.pull.got| < Used(t.m);
    }
  }

  // ----- What the player hears -----

  ghost function Heard(log: seq<Event>): seq<Sample> {
    if log == [] then []
    else Heard(log[..|log| - 1]) + (if log[|log| - 1].Played? then log[|log| - 1].s else [])
  }

  /** `ix` picks the samples of `a` out of `b`, from left to right. */
  ghost predicate Picks(ix: seq<nat>, a: seq<Sample>, b: seq<Sample>) {
    && |ix| == |a|
    && (forall i :: 0 <= i < |ix| ==> ix[i] < |b| && b[ix[i]] == a[i])
    && (forall i, j :: 0 <= i < j < |ix| ==> ix[i] < ix[j])
  }

  /** Picking goes on when both sequences grow by the same samples, or when only
      the second one grows. */
  lemma PicksGrow(ix: seq<nat>, a: seq<Sample>, b: seq<Sample>, s: seq<Sample>, n: nat)
    requires Picks(ix, a, b) && n == |b|
    ensures Picks(ix, a, b + s)
    ensures Picks(ix + seq(|s|, i requires 0 <= i < |s| => n + i), a + s, b + s)
  {
  }

  lemma {:induction false} HeardPicks(log: seq<Event>) returns (ix: seq<nat>)
    ensures Picks(ix, Heard(log), Taken(log))
  {
    if log == [] {
      return [];
    }
    var before := log[..|log| - 1];
    var e := log[|log| - 1];
    ix := HeardPicks(before);
    var n := |Taken(before)|;
    PicksGrow(ix, Heard(before), Taken(before), TakenBy(e), n);
    if e.Played? {
      ix := ix + seq(|e.s|, i requires 0 <= i < |e.s| => n + i);
    } else {
      assert Heard(log) == Heard(before);
    }
  }

  /** Whatever is played, with the silence removed, is part of what push put in
      the buffer, in the same order. */
  lemma HeardInOrder(s: State, actions: seq<Action>, t: State)
    requires Init(s) && Run(s, actions, t)
    ensures exists ix :: Picks(ix, Heard(t.m.log), t.m.hist)
  {
    Safety(s, actions, t);
    var ix := HeardPicks(t.m.log);
    assert Picks(ix, Heard(t.m.log), t.m.hist);
  }
}
