/** What the steps of push and of pull amount to when the other thread stays idle:
    both return, with the effect of `AudioRegulator`. And what push decides while
    pull runs: how much silence fills a gap, and which bound applies. */
module AudioAlone {
  import opened Common
  import opened RingMath
  import opened AudioBuf
  import opened AudioRegulator
  import opened AudioInterleaving

  // ----- Pull -----

  /** An upper bound of the steps left to pull. */
  ghost function PullWork(pc: PullPc): nat {
    match pc
    case LIdle => 0
    case LockPull(n) => n + 10
    case LoadFlag(n) => n + 9
    case StartHead(n) => n + 8
    case StartTail(n, _) => n + 7
    case ReadTail(n) => n + 6
    case ReadHead(n, _) => n + 5
    case ReadCopy(_, _, c, got) => if |got| <= c then c - |got| + 3 else 3
    case UnlockPull(_, _) => 2
    case StoreFlag(_, _) => 1
    case UnlockSilent(_) => 1
  }

  predicate PullReady(s: State) {
    s.pull.LIdle? || PullEnabled(s)
  }

  lemma PullTurn(s: State)
    requires Inv(s) && PullEnabled(s)
    ensures Shape(s) && Inv(StepPull(s)) && PullReady(StepPull(s))
    ensures PullWork(StepPull(s).pull) < PullWork(s.pull)
  {
    PullKeepsInv(s);
    PullShape(s);
    hide Inv;
    PullShrinks(s);
  }

  lemma PullShrinks(s: State)
    requires Shape(s) && PullEnabled(s) && (s.pull.ReadCopy? ==> |s.pull.got| <= s.pull.m)
    ensures PullReady(StepPull(s)) && PullWork(StepPull(s).pull) < PullWork(s.pull)
  {
    hide CanRead, CanWrite, MaxBuffered, Advance, Cell;
  }

  lemma PullShape(s: State)
    requires Inv(s)
    ensures Shape(s)
    ensures s.pull.ReadCopy? ==> |s.pull.got| <= s.pull.m <= s.pull.n && s.pull.m <= Used(s.m) && s.pull.t == s.m.tail
    ensures s.pull.ReadCopy? ==> s.pull.got == s.m.hist[s.m.taken..s.m.taken + |s.pull.got|]
    ensures s.pull.UnlockPull? ==> |s.pull.got| <= s.pull.n
    ensures s.pull.ReadHead? ==> s.pull.t == s.m.tail
    ensures s.m.alloc > 0 && 0 <= Used(s.m)
    ensures PullLocked(s.pull) ==> s.mutex.PullHolds?
  {
    hide Window, Taken, CanRead, CanWrite, MaxBuffered;
  }

  /** The state in which pull, alone, returns. */
  ghost function PullEnd(s: State): State
    requires Inv(s) && PullReady(s)
    decreases PullWork(s.pull)
  {
    if s.pull.LIdle? then s
    else
      PullTurn(s);
      PullEnd(StepPull(s))
  }

  lemma PullUnfold(s: State)
    requires Inv(s) && PullEnabled(s)
    ensures Shape(s) && Inv(StepPull(s)) && PullReady(StepPull(s)) && PullEnd(s) == PullEnd(StepPull(s))
  {
    hide Inv, Shape;
    PullTurn(s);
  }

  lemma PullIdle(s: State)
    requires Inv(s) && s.pull.LIdle?
    ensures PullEnd(s) == s
  {
    hide Inv;
  }

  ghost function Returned(s: State, m: Mem, silence: nat): State {
    s.(m := m.(log := m.log + [Silence(silence)]), mutex := Free, played := true, pull := LIdle)
  }

  lemma AfterRead(s: State)
    requires Inv(s) && s.pull.UnlockPull? && |s.pull.got| <= s.pull.n
    ensures PullEnd(s) == Returned(s, s.m, s.pull.n - |s.pull.got|)
  {
    hide Inv, PullEnd, Shape;
    PullUnfold(s);
    var s1 := s.(mutex := Free, pull := StoreFlag(s.pull.n, s.pull.got));
    assert StepPull(s) == s1;
    PullUnfold(s1);
    PullIdle(StepPull(s1));
  }

  /** The samples that pull takes, out of the ring. */
  ghost function TakenOut(m: Mem, k: nat): Mem
    requires m.alloc > 0 && m.taken + k <= |m.hist|
  {
    TakeOut(m, m.tail, k, Played(m.hist[m.taken..m.taken + k]))
  }

  lemma {:induction false} AfterCopy(s: State)
    requires Inv(s) && s.pull.ReadCopy?
    ensures s.m.alloc > 0 && s.m.taken + s.pull.m <= |s.m.hist| && s.pull.m <= s.pull.n
    ensures PullEnd(s) == Returned(s, TakenOut(s.m, s.pull.m), s.pull.n - s.pull.m)
    decreases PullWork(s.pull)
  {
    hide Inv, PullEnd, TakeOut;
    PullShape(s);
    PullUnfold(s);
    PullTurn(s);
    var t := StepPull(s);
    if |s.pull.got| < s.pull.m {
      assert t == s.(pull := t.pull) && t.pull.ReadCopy? && t.pull.m == s.pull.m && t.pull.n == s.pull.n;
      AfterCopy(t);
    } else {
      assert t == s.(m := TakenOut(s.m, s.pull.m), pull := UnlockPull(s.pull.n, s.pull.got));
      AfterRead(t);
    }
  }

  /** What pull returns once it reads. */
  ghost function WithSamples(s: State, n: nat): State
    requires s.m.alloc > 0 && 0 <= Used(s.m)
  {
    var k := Min(n, Used(s.m));
    Returned(s, if k == 0 then s.m else TakenOut(s.m, k), n - k)
  }

  lemma AfterTail(s: State)
    requires Inv(s) && s.pull.ReadTail? && s.pull.n > 0
    ensures s.m.alloc > 0 && 0 <= Used(s.m) && PullEnd(s) == WithSamples(s, s.pull.n)
  {
    hide Inv, PullEnd, TakeOut, Shape;
    PullShape(s);
    PullUnfold(s);
    var s1 := s.(pull := ReadHead(s.pull.n, s.m.tail));
    assert StepPull(s) == s1;
    PullUnfold(s1);
    MemCounts(s);
    var s2 := StepPull(s1);
    if Used(s.m) == 0 {
      assert s2 == s.(pull := UnlockPull(s.pull.n, []));
      AfterRead(s2);
    } else {
      assert s2 == s.(pull := ReadCopy(s.pull.n, s.m.tail, Min(s.pull.n, Used(s.m)), []));
      AfterCopy(s2);
    }
  }

  lemma MemCounts(s: State)
    requires Inv(s)
    ensures s.m.alloc > 0 && CanRead(s.m.alloc, s.m.head, s.m.tail) == Used(s.m)
  {
    UsedCounts(s.m);
  }

  /** The first time: only with the target buffered. */
  lemma StartAlone(s: State)
    requires Inv(s) && s.pull.StartHead? && s.pull.n > 0
    ensures s.m.alloc > 0 && 0 <= Used(s.m)
    ensures PullEnd(s) ==
            if Used(s.m) < s.m.target
            then s.(m := s.m.(log := s.m.log + [Silence(s.pull.n)]), mutex := Free, pull := LIdle)
            else WithSamples(s, s.pull.n)
  {
    hide Inv, PullEnd, TakeOut, Shape;
    PullShape(s);
    PullUnfold(s);
    var s1 := s.(pull := StartTail(s.pull.n, s.m.head));
    assert StepPull(s) == s1;
    PullUnfold(s1);
    MemCounts(s);
    var s2 := StepPull(s1);
    if Used(s.m) < s.m.target {
      assert s2 == s.(pull := UnlockSilent(s.pull.n));
      PullUnfold(s2);
      PullIdle(StepPull(s2));
    } else {
      assert s2 == s.(pull := ReadTail(s.pull.n));
      AfterTail(s2);
    }
  }

  /** Pull alone, from the beginning. */
  lemma PullWhole(s: State)
    requires Inv(s) && s.mutex.Free? && s.pull.LockPull? && s.pull.n > 0
    ensures s.m.alloc > 0 && 0 <= Used(s.m)
    ensures PullEnd(s) ==
            if !s.played && Used(s.m) < s.m.target
            then s.(m := s.m.(log := s.m.log + [Silence(s.pull.n)]), pull := LIdle)
            else WithSamples(s, s.pull.n)
  {
    hide Inv, PullEnd, TakeOut, Shape;
    PullUnfold(s);
    var s1 := s.(mutex := PullHolds, pull := LoadFlag(s.pull.n));
    assert StepPull(s) == s1;
    PullUnfold(s1);
    var s2 := StepPull(s1);
    if s.played {
      assert s2 == s1.(pull := ReadTail(s.pull.n));
      AfterTail(s2);
    } else {
      assert s2 == s1.(pull := StartHead(s.pull.n));
      StartAlone(s2);
    }
  }

  /** Main theorem on pull: alone, it returns. Until the target is buffered for the
      first time it hands out silence only and takes nothing; afterwards it plays the
      oldest samples, as many as asked for if they are there, completed with
      silence. */
  lemma PullAlone(s: State)
    requires Inv(s) && s.mutex.Free? && s.pull.LockPull? && s.pull.n > 0
    ensures var n := s.pull.n;
            var t := PullEnd(s);
            var used := |s.m.hist| - s.m.taken;
            && t.pull.LIdle? && t.mutex.Free? && t.push == s.push && t.m.hist == s.m.hist && 0 <= used
            && (!s.played && used < s.m.target ==>
                  !t.played && t.m.taken == s.m.taken && t.m.log == s.m.log + [Silence(n)])
            && (s.played || used >= s.m.target ==>
                  var k := if n < used then n else used;
                  && t.played && t.m.taken == s.m.taken + k
                  && t.m.log == s.m.log + (if k == 0 then [] else [Played(s.m.hist[s.m.taken..s.m.taken + k])])
                                + [Silence(n - k)])
  {
    hide Inv, PullEnd;
    PullWhole(s);
    assert s.m.log + [] == s.m.log;
  }

  // ----- Push -----

  /** An upper bound of the steps left to a write of `n` samples. */
  ghost function WriteWork(pc: PushPc): nat {
    match pc
    case WriteHead(_, data) => |data| + 3
    case WriteTail(_, data, _) => |data| + 2
    case WriteCopy(_, _, _, n, k) => if k <= n then n - k + 1 else 1
    case _ => 0
  }

  /** An upper bound of the steps left to push after a write of `data`. */
  ghost function AfterWrite(st: Stage, data: seq<Sample>): nat {
    match st
    case Gap => 0
    case First => 22 + 2 * |data|
    case Retry => 18 + |data|
    case Rest => 10
  }

  ghost function QueryWork(m: Mem, q: Query): nat {
    match q
    case ForGap(_) => m.target + 4
    case ForCheck(_) => 8
    case ForTrim(_) => 5
  }

  ghost function DropWork(why: Reason): nat {
    if why.MakeRoom? then 15 + |why.rest| else 2
  }

  /** An upper bound of the steps left to push. */
  ghost function PushWork(m: Mem, pc: PushPc): nat {
    match pc
    case QueryHead(q) => QueryWork(m, q) + 1
    case QueryTail(q, _) => QueryWork(m, q)
    case WriteHead(st, data) => AfterWrite(st, data) + WriteWork(pc)
    case WriteTail(st, data, _) => AfterWrite(st, data) + WriteWork(pc)
    case WriteCopy(st, data, _, _, _) => AfterWrite(st, data) + WriteWork(pc)
    case LockRetry(rest) => 22 + 2 * |rest|
    case UnlockRetry => 11
    case DropTail(why, _) => DropWork(why) + 2
    case DropHead(why, _, _) => DropWork(why) + 1
    case DropStore(why, _, _, _) => DropWork(why)
    case UnlockRoom(rest) => 14 + |rest|
    case LoadPlayed => 10
    case LockTrim(_) => 7
    case UnlockTrim(_) => 1
    case _ => 0
  }

  predicate PushRests(pc: PushPc) {
    Between(pc) || pc.Convert? || pc.PCrashed?
  }

  lemma PushShrinks(s: State)
    requires Shape(s) && PushEnabled(s)
    ensures PushWork(StepPush(s).m, StepPush(s).push) < PushWork(s.m, s.push)
  {
    hide CanRead, CanWrite, MaxBuffered, Advance, Cell;
    if s.push.WriteHead? || s.push.WriteTail? || s.push.WriteCopy? {
      WriteShrinks(s);
    } else if s.push.QueryHead? || s.push.QueryTail? {
      QueryShrinks(s);
    } else if s.push.DropTail? || s.push.DropHead? || s.push.DropStore? {
      DropShrinks(s);
    } else {
      OtherShrinks(s);
    }
    hide PushWork, StepPush;
  }

  lemma WriteShrinks(s: State)
    requires Shape(s) && PushEnabled(s) && (s.push.WriteHead? || s.push.WriteTail? || s.push.WriteCopy?)
    ensures PushWork(StepPush(s).m, StepPush(s).push) < PushWork(s.m, s.push)
  {
    hide CanRead, CanWrite, MaxBuffered, Advance, Cell;
  }

  lemma QueryShrinks(s: State)
    requires Shape(s) && PushEnabled(s) && (s.push.QueryHead? || s.push.QueryTail?)
    ensures PushWork(StepPush(s).m, StepPush(s).push) < PushWork(s.m, s.push)
  {
    hide CanRead, CanWrite, MaxBuffered, Advance, Cell;
  }

  lemma DropShrinks(s: State)
    requires Shape(s) && PushEnabled(s) && (s.push.DropTail? || s.push.DropHead? || s.push.DropStore?)
    ensures PushWork(StepPush(s).m, StepPush(s).push) < PushWork(s.m, s.push)
  {
    hide CanRead, CanWrite, MaxBuffered, Advance, Cell;
  }

  lemma OtherShrinks(s: State)
    requires Shape(s) && PushEnabled(s)
    requires !s.push.WriteHead? && !s.push.WriteTail? && !s.push.WriteCopy? && !s.push.QueryHead? && !s.push.QueryTail?
    requires !s.push.DropTail? && !s.push.DropHead? && !s.push.DropStore?
    ensures PushWork(StepPush(s).m, StepPush(s).push) < PushWork(s.m, s.push)
  {
    hide CanRead, CanWrite, MaxBuffered, Advance, Cell;
  }

  lemma PushTurn(s: State)
    requires Inv(s) && s.pull.LIdle? && !PushRests(s.push)
    ensures Shape(s) && PushEnabled(s)
    ensures var t := StepPush(s);
            Inv(t) && t.pull.LIdle? && PushWork(t.m, t.push) < PushWork(s.m, s.push)
  {
    PullShape(s);
    PushFree(s);
    PushKeepsInv(s);
    PushShrinks(s);
    hide Inv, CanRead, CanWrite, MaxBuffered, Advance, Cell;
  }

  lemma PushFree(s: State)
    requires Inv(s) && s.pull.LIdle? && !PushRests(s.push)
    ensures PushEnabled(s)
  {
    hide MemInv, PushInv, PullInv, FlowInv;
  }

  /** The state in which push, alone, returns or asks for the resampled frame. */
  ghost function PushEnd(s: State): State
    requires Inv(s) && s.pull.LIdle?
    decreases PushWork(s.m, s.push)
  {
    if PushRests(s.push) then s
    else
      PushTurn(s);
      PushEnd(StepPush(s))
  }

  // ----- What push does to the buffer -----

  function Max(a: int, b: int): int {
    if a < b then b else a
  }

  /** Push is on its way to store the frame: `all` is everything ever to be published
      and `taken` what was taken out before. Only a full ring makes it drop. */
  ghost predicate Storing(m: Mem, pc: PushPc, played: bool, all: seq<Sample>, taken: nat) {
    var cap := m.alloc - 1;
    match pc
    case WriteHead(st, data) => StoringAt(m, st, data, all, taken)
    case WriteTail(st, data, _) => StoringAt(m, st, data, all, taken)
    case WriteCopy(st, data, _, n, _) =>
      StoringAt(m, st, data, all, taken) && n == Min(|data|, cap - Used(m))
    case LockRetry(rest) => m.taken == taken && Used(m) == cap && rest != []
    case DropTail(why, _) => Dropping(m, why, played, all, taken)
    case DropHead(why, _, _) => Dropping(m, why, played, all, taken)
    case DropStore(why, _, _, _) => Dropping(m, why, played, all, taken)
    case UnlockRoom(rest) => m.taken == taken + |rest| && Used(m) + |rest| == cap
    case LoadPlayed => InRing(m, all, taken)
    case QueryHead(q) => Asking(m, q, played, all, taken)
    case QueryTail(q, _) => Asking(m, q, played, all, taken)
    case LockTrim(p) => p == played && InRing(m, all, taken)
    case UnlockTrim(p) => p == played && Finished(m, played, all, taken)
    case PReturned(p) => p == played && Finished(m, played, all, taken)
    case _ => false
  }

  ghost predicate StoringAt(m: Mem, st: Stage, data: seq<Sample>, all: seq<Sample>, taken: nat) {
    match st
    case First => m.taken == taken
    case Retry => m.taken == taken && Used(m) == m.alloc - 1 && data != []
    case Rest => m.taken == taken + |data| && Used(m) + |data| == m.alloc - 1
    case Gap => false
  }

  ghost predicate Dropping(m: Mem, why: Reason, played: bool, all: seq<Sample>, taken: nat) {
    match why
    case MakeRoom(rest) => m.taken == taken && Used(m) == m.alloc - 1 && rest != []
    case Enforce(p) => p == played && InRing(m, all, taken)
  }

  ghost predicate Asking(m: Mem, q: Query, played: bool, all: seq<Sample>, taken: nat) {
    match q
    case ForGap(_) => false
    case ForCheck(p) => p == played && InRing(m, all, taken)
    case ForTrim(p) => p == played && InRing(m, all, taken)
  }

  /** The frame is in the ring, which keeps as much as it can hold. */
  ghost predicate InRing(m: Mem, all: seq<Sample>, taken: nat) {
    m.hist == all && m.taken == Max(taken, |all| - (m.alloc - 1))
  }

  /** And no more than the bound is left. */
  ghost predicate Finished(m: Mem, played: bool, all: seq<Sample>, taken: nat) {
    m.hist == all && m.taken == Max(Max(taken, |all| - (m.alloc - 1)), |all| - Bound(m, played))
  }

  ghost predicate PushGoal(s: State, all: seq<Sample>, taken: nat) {
    s.m.hist + Pending(s.push) == all && Storing(s.m, s.push, s.played, all, taken)
  }

  lemma LoadKeepsGoal(s: State, all: seq<Sample>, taken: nat)
    requires Inv(s) && PushGoal(s, all, taken) && PushEnabled(s) && Shape(s)
    requires s.push.WriteHead? || s.push.WriteTail?
    ensures PushGoal(StepPush(s), all, taken)
  {
    UsedCounts(s.m);
    hide Window, Taken, CanRead, CanWrite, MaxBuffered, Advance;
  }

  lemma CopyKeepsGoal(s: State, all: seq<Sample>, taken: nat)
    requires Inv(s) && PushGoal(s, all, taken) && PushEnabled(s) && Shape(s)
    requires s.push.WriteCopy? && s.push.k < s.push.n
    ensures PushGoal(StepPush(s), all, taken)
  {
    hide Window, Taken, CanRead, CanWrite, MaxBuffered, Advance, Cell, RingInv, LogInv;
    var t := StepPush(s);
    assert Used(t.m) == Used(s.m) && t.m.hist == s.m.hist && t.m.taken == s.m.taken && t.m.alloc == s.m.alloc;
  }

  lemma PublishKeepsGoal(s: State, all: seq<Sample>, taken: nat)
    requires Inv(s) && PushGoal(s, all, taken) && PushEnabled(s) && Shape(s)
    requires s.push.WriteCopy? && s.push.k == s.push.n
    ensures PushGoal(StepPush(s), all, taken)
  {
    hide Window, Taken, CanRead, CanWrite, MaxBuffered, Advance, Cell, LogInv;
    var t := StepPush(s);
    var data, n := s.push.data, s.push.n;
    assert t.m.hist == s.m.hist + data[..n] && Used(t.m) == Used(s.m) + n && t.push == Wrote(s.push.st, data, n);
    assert data == data[..n] + data[n..];
    assert s.m.hist + data == s.m.hist + data[..n] + data[n..];
    assert n == |data| ==> data[..n] == data;
  }

  lemma WriteKeepsGoal(s: State, all: seq<Sample>, taken: nat)
    requires Inv(s) && PushGoal(s, all, taken) && PushEnabled(s) && Shape(s)
    requires s.push.WriteHead? || s.push.WriteTail? || s.push.WriteCopy?
    ensures PushGoal(StepPush(s), all, taken)
  {
    hide Inv, PushGoal;
    if !s.push.WriteCopy? {
      LoadKeepsGoal(s, all, taken);
    } else if s.push.k < s.push.n {
      CopyKeepsGoal(s, all, taken);
    } else {
      PublishKeepsGoal(s, all, taken);
    }
  }

  lemma DropKeepsGoal(s: State, all: seq<Sample>, taken: nat)
    requires Inv(s) && PushGoal(s, all, taken) && PushEnabled(s) && Shape(s)
    requires s.push.DropTail? || s.push.DropHead? || s.push.DropStore?
    ensures PushGoal(StepPush(s), all, taken)
  {
    UsedCounts(s.m);
    hide Window, Taken, CanRead, CanWrite, MaxBuffered, Advance;
  }

  lemma AskKeepsGoal(s: State, all: seq<Sample>, taken: nat)
    requires Inv(s) && PushGoal(s, all, taken) && PushEnabled(s) && Shape(s)
    requires s.push.QueryHead? || s.push.QueryTail?
    ensures PushGoal(StepPush(s), all, taken)
  {
    UsedCounts(s.m);
    hide Window, Taken, CanRead, CanWrite, MaxBuffered, Advance;
  }

  lemma OtherKeepsGoal(s: State, all: seq<Sample>, taken: nat)
    requires Inv(s) && PushGoal(s, all, taken) && PushEnabled(s) && Shape(s)
    requires s.push.LockRetry? || s.push.UnlockRoom? || s.push.LoadPlayed? || s.push.LockTrim? || s.push.UnlockTrim?
    ensures PushGoal(StepPush(s), all, taken)
  {
    hide Window, Taken, CanRead, CanWrite, MaxBuffered, Advance;
  }

  lemma StepKeepsGoal(s: State, all: seq<Sample>, taken: nat)
    requires Inv(s) && PushGoal(s, all, taken) && PushEnabled(s) && Shape(s)
    ensures PushGoal(StepPush(s), all, taken)
  {
    if s.push.WriteHead? || s.push.WriteTail? || s.push.WriteCopy? {
      WriteKeepsGoal(s, all, taken);
    } else if s.push.DropTail? || s.push.DropHead? || s.push.DropStore? {
      DropKeepsGoal(s, all, taken);
    } else if s.push.QueryHead? || s.push.QueryTail? {
      AskKeepsGoal(s, all, taken);
    } else {
      OtherKeepsGoal(s, all, taken);
    }
  }

  lemma {:induction false} EndKeepsGoal(s: State, all: seq<Sample>, taken: nat)
    requires Inv(s) && s.pull.LIdle? && PushGoal(s, all, taken)
    ensures Inv(PushEnd(s)) && PushGoal(PushEnd(s), all, taken) && PushRests(PushEnd(s).push)
    ensures PushEnd(s).played == s.played && PushEnd(s).m.alloc == s.m.alloc
    ensures PushEnd(s).m.target == s.m.target && PushEnd(s).m.rate == s.m.rate
    decreases PushWork(s.m, s.push)
  {
    hide Inv, PushGoal, PushWork;
    if !PushRests(s.push) {
      PushTurn(s);
      StepKeepsGoal(s, all, taken);
      StepKeepsSizes(s);
      EndKeepsGoal(StepPush(s), all, taken);
    }
  }

  lemma StepKeepsSizes(s: State)
    requires Shape(s) && PushEnabled(s)
    ensures var t := StepPush(s);
            && t.played == s.played && t.m.alloc == s.m.alloc
            && t.m.target == s.m.target && t.m.rate == s.m.rate
  {
    hide CanRead, CanWrite, MaxBuffered, Advance, Cell;
  }

  /** Main theorem on push: alone, it returns with the flag it read, everything it was
      given is published, and the buffer keeps the newest samples: as many as the
      ring can hold and as the bound for that flag allows, and no fewer. */
  lemma PushAlone(s: State)
    requires Inv(s) && s.pull.LIdle? && s.push.WriteHead? && s.push.st.First?
    ensures var t := PushEnd(s);
            var all := s.m.hist + s.push.data;
            && t.push == PReturned(s.played) && t.m.hist == all
            && t.m.taken == Max(Max(s.m.taken, |all| - (s.m.alloc - 1)), |all| - MaxBuffered(s.m.target, s.m.rate, s.played))
  {
    hide Inv, PushEnd, MaxBuffered;
    var all := s.m.hist + s.push.data;
    EndKeepsGoal(s, all, s.m.taken);
    GoalMet(PushEnd(s), all, s.m.taken);
  }

  lemma GoalMet(t: State, all: seq<Sample>, taken: nat)
    requires PushGoal(t, all, taken) && PushRests(t.push)
    ensures t.push == PReturned(t.played) && t.m.hist == all
    ensures t.m.taken == Max(Max(taken, |all| - (t.m.alloc - 1)), |all| - MaxBuffered(t.m.target, t.m.rate, t.played))
  {
    hide MaxBuffered;
  }

  // ----- Decisions of push -----

  /** A frame longer than the ring loses its beginning. */
  lemma ClipKeepsNewest(m: Mem, frame: seq<Sample>)
    requires m.alloc > 0
    ensures var r := Clip(m, frame);
            && |r| == (if |frame| < m.alloc then |frame| else m.alloc - 1)
            && r == frame[|frame| - |r|..]
  {
  }

  /** The flag that push goes by, once it was read. */
  function FlagOf(pc: PushPc): Option<bool> {
    match pc
    case QueryHead(q) => if q.ForGap? then None else Some(q.p)
    case QueryTail(q, _) => if q.ForGap? then None else Some(q.p)
    case DropTail(why, _) => if why.Enforce? then Some(why.p) else None
    case DropHead(why, _, _) => if why.Enforce? then Some(why.p) else None
    case DropStore(why, _, _, _) => if why.Enforce? then Some(why.p) else None
    case LockTrim(p) => Some(p)
    case UnlockTrim(p) => Some(p)
    case PReturned(p) => Some(p)
    case _ => None
  }

  /** Whatever pull does meanwhile, the flag is the one that was read, and no step
      fails a push: only a failed resampling does. */
  lemma FlagIsRead(s: State)
    requires Shape(s) && PushEnabled(s)
    ensures var t := StepPush(s);
            && (FlagOf(s.push).Some? ==> FlagOf(t.push) == FlagOf(s.push) || t.push.PCrashed?)
            && (FlagOf(s.push).None? && FlagOf(t.push).Some? ==> s.push.LoadPlayed? && FlagOf(t.push) == Some(s.played))
            && !t.push.PFailed? && !t.push.PIdle?
            && (t.push.Convert? ==> s.push.QueryTail? || s.push.WriteTail? || s.push.WriteCopy?)
  {
    hide CanRead, CanWrite, MaxBuffered, Advance, Cell;
  }

  /** A push starts with the gap, if there is one; a resampled frame enters with its
      newest samples; a failed resampling ends the push. */
  lemma FrameEnters(s: State, frame: seq<Sample>)
    requires Shape(s) && s.push.Convert?
    ensures forall input :: Exec(s.(push := PIdle), BeginPush(true, input)).push == QueryHead(ForGap(input))
    ensures forall input :: Exec(s.(push := PIdle), BeginPush(false, input)).push == Convert
    ensures Exec(s, Converted(None)) == s.(push := PFailed)
    ensures var t := Exec(s, Converted(Some(frame)));
            && t.push.WriteHead? && t.push.st.First? && t.given == s.given + t.push.data
            && |t.push.data| == (if |frame| < s.m.alloc then |frame| else s.m.alloc - 1)
            && t.push.data == frame[|frame| - |t.push.data|..]
  {
    ClipKeepsNewest(s.m, frame);
  }

  /** The silence for a gap completes what is buffered at that moment, together with
      the frame to come, exactly to the target. */
  lemma GapReachesTarget(s: State)
    requires Inv(s) && s.push.QueryTail? && s.push.q.ForGap?
    ensures Shape(s) && PushEnabled(s)
    ensures var t := StepPush(s);
            var used := |s.m.hist| - s.m.taken;
            if used + s.push.q.input < s.m.target then
              && t.push.WriteHead? && t.push.st.Gap?
              && used + s.push.q.input + |t.push.data| == s.m.target
              && (forall i :: 0 <= i < |t.push.data| ==> t.push.data[i] == 0)
              && t.given == s.given + t.push.data
            else
              t.push.Convert? && t.given == s.given
  {
    UsedCounts(s.m);
    assert s.given + [] == s.given;
  }
}
