/** The asynchronous logger as a state machine: producers, flushes, closes and the worker of
    the loop logger over one queue.

    NewAsyncLoopLogger copies the struct that newAsyncLogger made, so there are two loggers:
    the outer one, which callers and the worker use, and the inner one, which messages are
    handed to and which a critical call flushes.  Each has its own mutex `m` and its own
    closed flag; queue, queue lock and dispatcher are shared.

    A thread is a program counter; a step takes or releases a lock, reads or writes a flag or
    handles one queue element.  Waiting on the condition may end at any time. */
module AsyncLogger {

  type Msg = nat

  const MAX_QUEUE_SIZE := 10000

  datatype Call = Log(msg: Msg, critical: bool, unused: bool) | FlushCall | CloseCall

  /** Threads named `Want...` wait for a lock: of the outer logger, the inner logger or the
      queue.  `mid` says that the front element is processed but not yet removed.  `stamp`
      is the number of messages accepted when a critical call's flush took the queue lock. */
  datatype Pc =
    | Idle
    | WantOuter(c: Call) | Checking(c: Call) | InnerChecking(c: Call) | WantQueue(c: Call)
    | Testing(c: Call) | Draining(c: Call, mid: bool) | Pushing(c: Call) | Leaving(c: Call)
    | Dispatching(c: Call) | Closing(c: Call) | Setting(c: Call) | Releasing(c: Call)
    | WantInner | FlushChecking | WantQueueInner
    | DrainingInner(stamp: nat, mid: bool) | DispatchingInner(stamp: nat) | ReleasingInner(stamp: nat)
    | WLoop | WWantQueue | WTesting | WWaiting | WChecking | WProcessing(mid: bool) | WLeaving(stop: bool) | WDone

  datatype Holder = Free | By(t: nat)

  /** What the threads share; `accepted` and `processed` are histories. */
  datatype Shared = Shared(
    outer: Holder, inner: Holder, lock: Holder,
    closed: bool, innerClosed: bool, dispatcherClosed: bool,
    queue: seq<Msg>, accepted: seq<Msg>, processed: seq<Msg>)

  datatype State = State(threads: seq<Pc>, sh: Shared)

  /** The worker and `n` other threads. */
  function Init(n: nat): State {
    State([WLoop] + seq(n, i => Idle), Shared(Free, Free, Free, false, false, false, [], [], []))
  }

  /** A thread waits for a lock until it is free. */
  predicate Enabled(sh: Shared, pc: Pc) {
    match pc
    case WantOuter(_) => sh.outer.Free?
    case WantInner => sh.inner.Free?
    case WantQueue(_) => sh.lock.Free?
    case WantQueueInner => sh.lock.Free?
    case WWantQueue => sh.lock.Free?
    case WWaiting => sh.lock.Free?
    case WDone => false
    case _ => true
  }

  datatype Moved = Moved(pc: Pc, sh: Shared)

  /** processLogMsg on the front element, then its removal. */
  function Process(sh: Shared): Shared
    requires sh.queue != []
  { sh.(processed := sh.processed + [sh.queue[0]]) }

  function Remove(sh: Shared): Shared
    requires sh.queue != []
  { sh.(queue := sh.queue[1..]) }

  /** Calls on the outer logger by thread `t`; `next` is the call an idle thread makes. */
  function StepOuter(sh: Shared, t: nat, pc: Pc, next: Call): Moved {
    match pc
    case Idle =>
      if next.Log? && next.unused then Moved(if next.critical then WantInner else Idle, sh)
      else Moved(WantOuter(next), sh)
    case WantOuter(c) => Moved(Checking(c), sh.(outer := By(t)))
    case Checking(c) =>
      if sh.closed then Moved(Releasing(c), sh)
      else Moved(if c.Log? then InnerChecking(c) else WantQueue(c), sh)
    case InnerChecking(c) => Moved(if sh.innerClosed then Releasing(c) else WantQueue(c), sh)
    case WantQueue(c) => Moved(if c.Log? then Testing(c) else Draining(c, false), sh.(lock := By(t)))
    case Releasing(c) =>
      Moved(if c.Log? && c.critical then WantInner else Idle, sh.(outer := Free))
    case _ => StepQueue(sh, pc)
  }

  /** The part of those calls behind the queue lock. */
  function StepQueue(sh: Shared, pc: Pc): Moved {
    match pc
    case Testing(c) => Moved(if |sh.queue| >= MAX_QUEUE_SIZE then Draining(c, false) else Pushing(c), sh)
    case Draining(c, mid) =>
      if mid && sh.queue != [] then Moved(Draining(c, false), Remove(sh))
      else if sh.queue != [] then Moved(Draining(c, true), Process(sh))
      else Moved(if c.Log? then Pushing(c) else Leaving(c), sh)
    case Pushing(c) =>
      if c.Log? then Moved(Leaving(c), sh.(queue := sh.queue + [c.msg], accepted := sh.accepted + [c.msg]))
      else Moved(pc, sh)
    case Leaving(c) => Moved(if c.Log? then Releasing(c) else Dispatching(c), sh.(lock := Free))
    case Dispatching(c) => Moved(if c.CloseCall? then Closing(c) else Releasing(c), sh)
    case Closing(c) => Moved(Setting(c), sh.(dispatcherClosed := true))
    case Setting(c) => Moved(Releasing(c), sh.(closed := true))
    case _ => Moved(pc, sh)
  }

  /** The flush of a critical call, on the inner logger. */
  function StepInner(sh: Shared, t: nat, pc: Pc): Moved {
    match pc
    case WantInner => Moved(FlushChecking, sh.(inner := By(t)))
    case FlushChecking => Moved(if sh.innerClosed then ReleasingInner(0) else WantQueueInner, sh)
    case WantQueueInner => Moved(DrainingInner(|sh.accepted|, false), sh.(lock := By(t)))
    case DrainingInner(n, mid) =>
      if mid && sh.queue != [] then Moved(DrainingInner(n, false), Remove(sh))
      else if sh.queue != [] then Moved(DrainingInner(n, true), Process(sh))
      else Moved(DispatchingInner(n), sh.(lock := Free))
    case DispatchingInner(n) => Moved(ReleasingInner(n), sh)
    case ReleasingInner(n) => Moved(Idle, sh.(inner := Free))
    case _ => Moved(pc, sh)
  }

  /** processQueue and processItem. */
  function StepWorker(sh: Shared, t: nat, pc: Pc): Moved {
    match pc
    case WLoop => Moved(if sh.closed then WDone else WWantQueue, sh)
    case WWantQueue => Moved(WTesting, sh.(lock := By(t)))
    case WTesting =>
      if sh.queue == [] && !sh.closed then Moved(WWaiting, sh.(lock := Free)) else Moved(WChecking, sh)
    case WWaiting => Moved(WTesting, sh.(lock := By(t)))
    case WChecking => Moved(if sh.closed then WLeaving(true) else WProcessing(false), sh)
    case WProcessing(mid) =>
      if mid && sh.queue != [] then Moved(WLeaving(false), Remove(sh))
      else if sh.queue != [] then Moved(WProcessing(true), Process(sh))
      else Moved(WLeaving(false), sh)
    case WLeaving(stop) => Moved(if stop then WDone else WLoop, sh.(lock := Free))
    case _ => Moved(pc, sh)
  }

  predicate InInner(pc: Pc) {
    || pc.WantInner? || pc.FlushChecking? || pc.WantQueueInner? || pc.DrainingInner?
    || pc.DispatchingInner? || pc.ReleasingInner?
  }

  predicate InWorker(pc: Pc) {
    || pc.WLoop? || pc.WWantQueue? || pc.WTesting? || pc.WWaiting? || pc.WChecking? || pc.WProcessing?
    || pc.WLeaving? || pc.WDone?
  }

  function StepThread(sh: Shared, t: nat, pc: Pc, next: Call): Moved {
    if InInner(pc) then StepInner(sh, t, pc)
    else if InWorker(pc) then StepWorker(sh, t, pc)
    else StepOuter(sh, t, pc, next)
  }

  predicate Can(s: State, t: nat) { t < |s.threads| && Enabled(s.sh, s.threads[t]) }

  function Step(s: State, t: nat, next: Call): State
    requires Can(s, t)
  {
    var m := StepThread(s.sh, t, s.threads[t], next);
    State(s.threads[t := m.pc], m.sh)
  }

  /** An interleaving: which thread moves, and which call it makes if it is idle. */
  datatype Move = Move(t: nat, next: Call)

  predicate IsRun(s: State, moves: seq<Move>)
    decreases |moves|
  {
    moves == [] || (Can(s, moves[0].t) && IsRun(Step(s, moves[0].t, moves[0].next), moves[1..]))
  }

  function After(s: State, moves: seq<Move>): State
    requires IsRun(s, moves)
    decreases |moves|
  {
    if moves == [] then s else After(Step(s, moves[0].t, moves[0].next), moves[1..])
  }
}
