/** What every interleaving of the asynchronous logger keeps. */
module AsyncLoggerProofs {
  import opened AsyncLogger

  // ----- what holds of one thread and the shared state -----

  predicate HoldsOuter(pc: Pc) {
    || pc.Checking? || pc.InnerChecking? || pc.WantQueue? || pc.Testing? || pc.Draining? || pc.Pushing?
    || pc.Leaving? || pc.Dispatching? || pc.Closing? || pc.Setting? || pc.Releasing?
  }

  predicate HoldsInner(pc: Pc) { InInner(pc) && !pc.WantInner? }

  predicate HoldsLock(pc: Pc) {
    || pc.Testing? || pc.Draining? || pc.Pushing? || pc.Leaving? || pc.DrainingInner?
    || pc.WTesting? || pc.WChecking? || pc.WProcessing? || pc.WLeaving?
  }

  /** A lock is held by the thread whose program counter says so. */
  predicate LocksOk(sh: Shared, u: nat, pc: Pc) {
    && (HoldsOuter(pc) <==> sh.outer == By(u))
    && (HoldsInner(pc) <==> sh.inner == By(u))
    && (HoldsLock(pc) <==> sh.lock == By(u))
  }

  /** The calls that fit a program counter. */
  predicate CallOk(pc: Pc) {
    && (pc.InnerChecking? || pc.Testing? || pc.Pushing? ==> pc.c.Log?)
    && (pc.Dispatching? ==> !pc.c.Log?)
    && (pc.Closing? || pc.Setting? ==> pc.c.CloseCall?)
  }

  /** The front element is processed but not yet removed. */
  predicate Mid(pc: Pc) { (pc.Draining? || pc.DrainingInner? || pc.WProcessing?) && pc.mid }

  /** Behind the check of the closed flag, on the way to the queue or to closing. */
  predicate Passed(pc: Pc) {
    || pc.InnerChecking? || pc.WantQueue? || pc.Testing? || pc.Draining? || pc.Pushing?
    || pc.Leaving? || pc.Dispatching? || pc.Closing?
  }

  /** A close that has drained the queue. */
  predicate Drained(pc: Pc) {
    (pc.Leaving? || pc.Dispatching? || pc.Closing? || pc.Setting?) && pc.c.CloseCall?
  }

  predicate QueueOk(sh: Shared, pc: Pc) {
    && (Mid(pc) ==> sh.queue != [])
    && (pc.Pushing? ==> |sh.queue| < MAX_QUEUE_SIZE)
    && (Drained(pc) ==> sh.queue == [])
  }

  predicate ClosedOk(sh: Shared, pc: Pc) {
    && (Passed(pc) ==> !sh.dispatcherClosed)
    && (pc.Setting? ==> sh.dispatcherClosed)
    && (HoldsOuter(pc) && !pc.Setting? ==> sh.closed == sh.dispatcherClosed)
  }

  /** A flush under way has the queue lock, or has had it. */
  predicate Flushing(pc: Pc) { pc.DrainingInner? || pc.DispatchingInner? || pc.ReleasingInner? }

  /** A critical call that has drained the queue: everything accepted when its flush took the queue
      lock is processed. */
  predicate StampOk(sh: Shared, pc: Pc) {
    && (Flushing(pc) ==> pc.stamp <= |sh.accepted|)
    && (pc.DispatchingInner? || pc.ReleasingInner? ==> pc.stamp <= |sh.processed|)
  }

  predicate ThreadOk(sh: Shared, u: nat, pc: Pc) {
    LocksOk(sh, u, pc) && CallOk(pc) && QueueOk(sh, pc) && ClosedOk(sh, pc) && StampOk(sh, pc)
  }

  /** `mid` is what the holder of the queue lock says. */
  predicate SharedOk(sh: Shared, mid: bool) {
    && |sh.queue| <= MAX_QUEUE_SIZE && !sh.innerClosed
    && (mid ==> sh.queue != [])
    && sh.accepted == sh.processed + (if mid && sh.queue != [] then sh.queue[1..] else sh.queue)
    && (sh.dispatcherClosed ==> sh.queue == [])
    && (sh.closed ==> sh.dispatcherClosed) && (sh.outer.Free? ==> sh.closed == sh.dispatcherClosed)
  }

  // ----- one step -----
  //
  // Postconditions compare predicates with `true`: that keeps the verifier from splitting
  // them.

  predicate InQueue(pc: Pc) {
    || pc.Testing? || pc.Draining? || pc.Pushing? || pc.Leaving? || pc.Dispatching? || pc.Closing? || pc.Setting?
  }

  predicate InOuter(pc: Pc) { !InInner(pc) && !InWorker(pc) && !InQueue(pc) }

  /** The mid flag behind a step of a thread at `pc`. */
  function MidAfter(pc: Pc, mid: bool, m: Moved): bool { if HoldsLock(pc) then Mid(m.pc) else mid }

  /** What a step is taken from. */
  predicate Before(sh: Shared, t: nat, pc: Pc, mid: bool) {
    && Enabled(sh, pc) && ThreadOk(sh, t, pc) && SharedOk(sh, mid)
    && (HoldsLock(pc) ==> mid == Mid(pc)) && (sh.lock.Free? ==> !mid)
  }

  /** What it leads to, for the moving thread and the shared state. */
  predicate Behind(t: nat, pc: Pc, mid: bool, m: Moved) {
    ThreadOk(m.sh, t, m.pc) && SharedOk(m.sh, MidAfter(pc, mid, m))
  }

  lemma OuterMoves(sh: Shared, t: nat, pc: Pc, next: Call, mid: bool)
    requires Before(sh, t, pc, mid) && InOuter(pc)
    ensures Behind(t, pc, mid, StepOuter(sh, t, pc, next)) == true
  {
  }

  lemma QueueMoves(sh: Shared, t: nat, pc: Pc, mid: bool)
    requires Before(sh, t, pc, mid) && InQueue(pc)
    ensures Behind(t, pc, mid, StepQueue(sh, pc)) == true
  {
  }

  lemma InnerMoves(sh: Shared, t: nat, pc: Pc, mid: bool)
    requires Before(sh, t, pc, mid) && InInner(pc)
    ensures Behind(t, pc, mid, StepInner(sh, t, pc)) == true
  {
  }

  lemma WorkerMoves(sh: Shared, t: nat, pc: Pc, mid: bool)
    requires Before(sh, t, pc, mid) && InWorker(pc)
    ensures Behind(t, pc, mid, StepWorker(sh, t, pc)) == true
  {
  }

  /** The other threads. */
  predicate Bystander(sh: Shared, t: nat, u: nat, other: Pc) { u != t && ThreadOk(sh, u, other) }

  lemma OuterLeaves(sh: Shared, t: nat, pc: Pc, next: Call, u: nat, other: Pc)
    requires Enabled(sh, pc) && ThreadOk(sh, t, pc) && InOuter(pc) && Bystander(sh, t, u, other)
    ensures ThreadOk(StepOuter(sh, t, pc, next).sh, u, other) == true
  {
  }

  lemma QueueLeaves(sh: Shared, t: nat, pc: Pc, u: nat, other: Pc)
    requires ThreadOk(sh, t, pc) && InQueue(pc) && Bystander(sh, t, u, other)
    ensures ThreadOk(StepQueue(sh, pc).sh, u, other) == true
  {
  }

  lemma InnerLeaves(sh: Shared, t: nat, pc: Pc, u: nat, other: Pc)
    requires Enabled(sh, pc) && LocksOk(sh, t, pc) && InInner(pc) && Bystander(sh, t, u, other)
    ensures ThreadOk(StepInner(sh, t, pc).sh, u, other) == true
  {
    InnerLeavesLocks(sh, t, pc, u, other);
    var n := StepInner(sh, t, pc).sh;
    Untouched(sh, n, other);
  }

  lemma InnerLeavesLocks(sh: Shared, t: nat, pc: Pc, u: nat, other: Pc)
    requires Enabled(sh, pc) && LocksOk(sh, t, pc) && InInner(pc) && LocksOk(sh, u, other) && u != t
    ensures LocksOk(StepInner(sh, t, pc).sh, u, other) == true
    ensures Touches(sh, StepInner(sh, t, pc).sh, HoldsLock(other)) == true
  {
  }

  /** A step outside the outer logger's calls only takes from the queue, and not while the
      other thread holds the queue lock. */
  predicate Touches(sh: Shared, n: Shared, locked: bool) {
    && n.closed == sh.closed && n.dispatcherClosed == sh.dispatcherClosed && n.accepted == sh.accepted
    && |sh.processed| <= |n.processed|
    && (sh.queue == [] ==> n.queue == []) && (locked ==> n.queue == sh.queue)
  }

  lemma Untouched(sh: Shared, n: Shared, other: Pc)
    requires Touches(sh, n, HoldsLock(other)) && QueueOk(sh, other) && ClosedOk(sh, other) && StampOk(sh, other)
    ensures (QueueOk(n, other) && ClosedOk(n, other) && StampOk(n, other)) == true
  {
  }

  lemma WorkerLeavesLocks(sh: Shared, t: nat, pc: Pc, u: nat, other: Pc)
    requires Enabled(sh, pc) && LocksOk(sh, t, pc) && InWorker(pc) && LocksOk(sh, u, other) && u != t
    ensures LocksOk(StepWorker(sh, t, pc).sh, u, other) == true
    ensures Touches(sh, StepWorker(sh, t, pc).sh, HoldsLock(other)) == true
  {
  }

  lemma WorkerLeaves(sh: Shared, t: nat, pc: Pc, u: nat, other: Pc)
    requires Enabled(sh, pc) && LocksOk(sh, t, pc) && InWorker(pc) && Bystander(sh, t, u, other)
    ensures ThreadOk(StepWorker(sh, t, pc).sh, u, other) == true
  {
    WorkerLeavesLocks(sh, t, pc, u, other);
    Untouched(sh, StepWorker(sh, t, pc).sh, other);
  }

  // ----- whole states -----

  predicate MidIn(s: State) { exists u | 0 <= u < |s.threads| :: Mid(s.threads[u]) }

  predicate Inv(s: State) {
    && (forall u | 0 <= u < |s.threads| :: ThreadOk(s.sh, u, s.threads[u]))
    && SharedOk(s.sh, MidIn(s))
  }

  lemma StepMoves(sh: Shared, t: nat, pc: Pc, next: Call, mid: bool)
    requires Before(sh, t, pc, mid)
    ensures Behind(t, pc, mid, StepThread(sh, t, pc, next)) == true
  {
    if InInner(pc) {
      InnerMoves(sh, t, pc, mid);
    } else if InWorker(pc) {
      WorkerMoves(sh, t, pc, mid);
    } else if InQueue(pc) {
      QueueMoves(sh, t, pc, mid);
    } else {
      OuterMoves(sh, t, pc, next, mid);
    }
  }

  lemma StepLeaves(sh: Shared, t: nat, pc: Pc, next: Call, u: nat, other: Pc)
    requires Enabled(sh, pc) && ThreadOk(sh, t, pc) && Bystander(sh, t, u, other)
    ensures ThreadOk(StepThread(sh, t, pc, next).sh, u, other) == true
  {
    if InInner(pc) {
      InnerLeaves(sh, t, pc, u, other);
    } else if InWorker(pc) {
      WorkerLeaves(sh, t, pc, u, other);
    } else if InQueue(pc) {
      QueueLeaves(sh, t, pc, u, other);
    } else {
      OuterLeaves(sh, t, pc, next, u, other);
    }
  }

  lemma MidHolds(sh: Shared, u: nat, pc: Pc)
    requires LocksOk(sh, u, pc) && Mid(pc)
    ensures sh.lock == By(u)
  {
  }

  lemma InvKept(s: State, t: nat, next: Call)
    requires Can(s, t) && Inv(s)
    ensures Inv(Step(s, t, next))
  {
    var pc, mid := s.threads[t], MidIn(s);
    var m := StepThread(s.sh, t, pc, next);
    var n := Step(s, t, next);
    forall u | 0 <= u < |s.threads| && Mid(s.threads[u]) ensures s.sh.lock == By(u) {
      MidHolds(s.sh, u, s.threads[u]);
    }
    StepMoves(s.sh, t, pc, next, mid);
    forall u | 0 <= u < |s.threads| ensures ThreadOk(n.sh, u, n.threads[u]) {
      if u != t {
        StepLeaves(s.sh, t, pc, next, u, s.threads[u]);
      }
    }
    assert MidIn(n) == MidAfter(pc, mid, m) by {
      if mid {
        var u :| 0 <= u < |s.threads| && Mid(s.threads[u]);
        assert u != t ==> n.threads[u] == s.threads[u];
      }
      assert n.threads[t] == m.pc;
      assert Mid(m.pc) ==> HoldsLock(pc) by { OnlyHoldersMid(s.sh, t, pc, next); }
    }
  }

  lemma OnlyHoldersMid(sh: Shared, t: nat, pc: Pc, next: Call)
    ensures Mid(StepThread(sh, t, pc, next).pc) ==> HoldsLock(pc)
  {
  }

  lemma InitInv(n: nat)
    ensures Inv(Init(n))
  {
    var s := Init(n);
    forall u | 0 <= u < |s.threads| ensures ThreadOk(s.sh, u, s.threads[u]) && !Mid(s.threads[u]) {
      assert s.threads[u] == (if u == 0 then WLoop else Idle);
    }
  }

  lemma {:induction false} RunKeeps(s: State, moves: seq<Move>)
    requires IsRun(s, moves) && Inv(s)
    ensures Inv(After(s, moves))
    decreases |moves|
  {
    if moves != [] {
      InvKept(s, moves[0].t, moves[0].next);
      RunKeeps(Step(s, moves[0].t, moves[0].next), moves[1..]);
    }
  }

  // ----- what a user relies on -----

  /** In every interleaving of any number of callers with the worker: the messages accepted are
      those processed, in order, followed by the queue (whose front may be processed but not
      yet removed), and the queue never exceeds its limit. */
  lemma Conservation(n: nat, moves: seq<Move>)
    requires IsRun(Init(n), moves)
    ensures var s := After(Init(n), moves);
      && s.sh.processed <= s.sh.accepted
      && (s.sh.lock.Free? ==> s.sh.accepted == s.sh.processed + s.sh.queue)
      && s.sh.accepted == s.sh.processed + (if MidIn(s) && s.sh.queue != [] then s.sh.queue[1..] else s.sh.queue)
      && |s.sh.queue| <= MAX_QUEUE_SIZE
  {
    InitInv(n);
    RunKeeps(Init(n), moves);
    var s := After(Init(n), moves);
    forall u | 0 <= u < |s.threads| && Mid(s.threads[u]) ensures s.sh.lock == By(u) {
      MidHolds(s.sh, u, s.threads[u]);
    }
  }

  // ----- critical calls -----

  /** A critical call on its way to its own flush. */
  predicate Critical(pc: Pc) {
    (pc.WantOuter? || HoldsOuter(pc)) && pc.c.Log? && pc.c.critical
  }

  /** The flush still to come, or under way, covers `covered`. */
  predicate Owes(sh: Shared, pc: Pc, covered: seq<Msg>) {
    covered <= sh.accepted && if Flushing(pc) then |covered| <= pc.stamp else Critical(pc) || InInner(pc)
  }

  /** The thread makes no other call during the run. */
  predicate Busy(s: State, moves: seq<Move>, t: nat)
    requires IsRun(s, moves)
    decreases |moves|
  {
    t < |s.threads| && !s.threads[t].Idle? &&
    (moves != [] ==> Busy(Step(s, moves[0].t, moves[0].next), moves[1..], t))
  }

  lemma AcceptedGrows(sh: Shared, t: nat, pc: Pc, next: Call)
    ensures sh.accepted <= StepThread(sh, t, pc, next).sh.accepted
  {
  }

  /** The flush of a critical call covers everything accepted before it takes the queue lock, and the
      call does not return before its flush. */
  lemma OwesOn(sh: Shared, t: nat, pc: Pc, next: Call, covered: seq<Msg>)
    requires Owes(sh, pc, covered) && CallOk(pc) && !sh.innerClosed
    ensures var m := StepThread(sh, t, pc, next);
      if m.pc.Idle? then pc.ReleasingInner? else Owes(m.sh, m.pc, covered)
  {
    AcceptedGrows(sh, t, pc, next);
  }

  lemma {:induction false} RunOwes(s: State, moves: seq<Move>, t: nat, covered: seq<Msg>)
    requires IsRun(s, moves) && Inv(s) && Busy(s, moves, t) && Owes(s.sh, s.threads[t], covered)
    ensures var r := After(s, moves); t < |r.threads| && Inv(r) && Owes(r.sh, r.threads[t], covered)
    decreases |moves|
  {
    if moves != [] {
      var u, next := moves[0].t, moves[0].next;
      var n := Step(s, u, next);
      InvKept(s, u, next);
      AcceptedGrows(s.sh, u, s.threads[u], next);
      if u == t {
        OwesOn(s.sh, t, s.threads[t], next, covered);
        assert n.threads[t] == StepThread(s.sh, t, s.threads[t], next).pc;
        assert Busy(n, moves[1..], t);
      }
      RunOwes(n, moves[1..], t, covered);
    }
  }

  /** The step by which a call returns. */
  predicate Returns(s: State, t: nat, next: Call) {
    Can(s, t) && !s.threads[t].Idle? && Step(s, t, next).threads[t].Idle?
  }

  /** Whatever was accepted at some moment of a critical call, up to where its flush has the queue
      lock, is processed, in order, when the call returns. */
  lemma CriticalCovers(n: nat, before: seq<Move>, during: seq<Move>, t: nat, next: Call)
    requires IsRun(Init(n), before)
    requires IsRun(After(Init(n), before), during) && Busy(After(Init(n), before), during, t)
    requires var s := After(Init(n), before); Owes(s.sh, s.threads[t], s.sh.accepted)
    requires Returns(After(After(Init(n), before), during), t, next)
    ensures After(Init(n), before).sh.accepted <= After(After(Init(n), before), during).sh.processed
  {
    InitInv(n);
    RunKeeps(Init(n), before);
    var s := After(Init(n), before);
    FlushCovers(s, during, t, next, s.sh.accepted);
  }

  lemma FlushCovers(s: State, during: seq<Move>, t: nat, next: Call, covered: seq<Msg>)
    requires IsRun(s, during) && Inv(s) && Busy(s, during, t) && Owes(s.sh, s.threads[t], covered)
    requires Returns(After(s, during), t, next)
    ensures covered <= After(s, during).sh.processed
  {
    RunOwes(s, during, t, covered);
    var r := After(s, during);
    assert ThreadOk(r.sh, t, r.threads[t]);
    OwesOn(r.sh, t, r.threads[t], next, covered);
    assert |covered| <= |r.sh.processed| && r.sh.processed <= r.sh.accepted;
  }

  /** A critical call whose message is accepted returns only when that message and everything
      accepted before it are processed, in order. */
  lemma CriticalReturns(n: nat, before: seq<Move>, any: Call, during: seq<Move>, t: nat, next: Call)
    requires IsRun(Init(n), before)
    requires var s := After(Init(n), before); Can(s, t) && s.threads[t].Pushing? && Critical(s.threads[t])
    requires var p := Step(After(Init(n), before), t, any);
      IsRun(p, during) && Busy(p, during, t) && Returns(After(p, during), t, next)
    ensures var s := After(Init(n), before);
      s.sh.accepted + [s.threads[t].c.msg] <= After(Step(s, t, any), during).sh.processed
  {
    InitInv(n);
    RunKeeps(Init(n), before);
    var s := After(Init(n), before);
    var p := Step(s, t, any);
    InvKept(s, t, any);
    OwesOn(s.sh, t, s.threads[t], any, s.sh.accepted);
    assert p.threads[t] == Leaving(s.threads[t].c);
    FlushCovers(p, during, t, next, s.sh.accepted + [s.threads[t].c.msg]);
  }

  lemma QuietStep(s: State, t: nat, next: Call)
    requires Can(s, t) && Inv(s) && s.sh.dispatcherClosed
    ensures var n := Step(s, t, next).sh;
      n.processed == s.sh.processed && n.accepted == s.sh.accepted && n.dispatcherClosed
  {
    assert ThreadOk(s.sh, t, s.threads[t]);
  }

  lemma {:induction false} QuietRun(s: State, moves: seq<Move>)
    requires IsRun(s, moves) && Inv(s) && s.sh.dispatcherClosed
    ensures After(s, moves).sh.processed == s.sh.processed && After(s, moves).sh.accepted == s.sh.accepted
    decreases |moves|
  {
    if moves != [] {
      QuietStep(s, moves[0].t, moves[0].next);
      InvKept(s, moves[0].t, moves[0].next);
      QuietRun(Step(s, moves[0].t, moves[0].next), moves[1..]);
    }
  }

  /** When the dispatcher closes, everything accepted has been processed, and from then on
      nothing is accepted or processed, whatever runs afterwards. */
  lemma NothingAfterClose(n: nat, moves: seq<Move>, later: seq<Move>)
    requires IsRun(Init(n), moves) && After(Init(n), moves).sh.dispatcherClosed
    requires IsRun(After(Init(n), moves), later)
    ensures var s := After(Init(n), moves);
      && s.sh.accepted == s.sh.processed
      && After(s, later).sh.processed == s.sh.processed && After(s, later).sh.accepted == s.sh.accepted
  {
    InitInv(n);
    RunKeeps(Init(n), moves);
    QuietRun(After(Init(n), moves), later);
  }
}
