/** What each call of the asynchronous logger has done when it returns, and what the worker does by
    itself. */
module AsyncLoggerCalls {
  import opened AsyncLogger
  import opened AsyncLoggerProofs

  /** A step of any thread takes nothing back. */
  lemma NothingBack(sh: Shared, t: nat, pc: Pc, next: Call)
    ensures var n := StepThread(sh, t, pc, next).sh;
      sh.accepted <= n.accepted && sh.processed <= n.processed && (sh.closed ==> n.closed)
  {
  }

  // ----- flushing and closing -----

  predicate Drains(c: Call) { c.FlushCall? || c.CloseCall? }

  /** A flush or a close that has not drained the queue yet. */
  predicate Underway(pc: Pc) { (pc.WantOuter? || pc.Checking? || pc.WantQueue? || pc.Draining?) && Drains(pc.c) }

  /** The same call behind that. */
  predicate Finishing(pc: Pc) {
    (pc.Leaving? || pc.Dispatching? || pc.Closing? || pc.Setting? || pc.Releasing?) && Drains(pc.c)
  }

  /** The call has processed `covered`, or will do so, and a close sets the flag. */
  predicate WillDrain(sh: Shared, pc: Pc, covered: seq<Msg>) {
    && covered <= sh.accepted
    && (Underway(pc) || (Finishing(pc) && |covered| <= |sh.processed|))
    && (pc.Releasing? && pc.c.CloseCall? ==> sh.closed)
  }

  /** A step of the calling thread. */
  lemma DrainsOn(sh: Shared, t: nat, pc: Pc, next: Call, covered: seq<Msg>, mid: bool)
    requires WillDrain(sh, pc, covered) && ThreadOk(sh, t, pc) && SharedOk(sh, mid)
    ensures var m := StepThread(sh, t, pc, next);
      if m.pc.Idle? then pc.Releasing? && m.sh.closed == sh.closed else WillDrain(m.sh, m.pc, covered)
  {
    AcceptedGrows(sh, t, pc, next);
  }

  lemma {:induction false} RunDrains(s: State, moves: seq<Move>, t: nat, covered: seq<Msg>)
    requires IsRun(s, moves) && Inv(s) && Busy(s, moves, t) && WillDrain(s.sh, s.threads[t], covered)
    ensures var r := After(s, moves); t < |r.threads| && Inv(r) && WillDrain(r.sh, r.threads[t], covered)
    ensures After(s, moves).threads[t].c == s.threads[t].c
    decreases |moves|
  {
    if moves != [] {
      var u, next := moves[0].t, moves[0].next;
      var n := Step(s, u, next);
      InvKept(s, u, next);
      NothingBack(s.sh, u, s.threads[u], next);
      if u == t {
        DrainsOn(s.sh, t, s.threads[t], next, covered, MidIn(s));
        assert n.threads[t] == StepThread(s.sh, t, s.threads[t], next).pc;
        assert Busy(n, moves[1..], t);
      }
      RunDrains(n, moves[1..], t, covered);
    }
  }

  lemma DrainReturns(s: State, during: seq<Move>, t: nat, next: Call)
    requires Inv(s) && IsRun(s, during) && Busy(s, during, t) && Underway(s.threads[t])
    requires Returns(After(s, during), t, next)
    ensures var r := Step(After(s, during), t, next);
      && s.sh.accepted <= r.sh.processed
      && (s.threads[t].c.CloseCall? ==> r.sh.closed && r.sh.dispatcherClosed && r.sh.accepted == r.sh.processed)
  {
    RunDrains(s, during, t, s.sh.accepted);
    var r := After(s, during);
    assert ThreadOk(r.sh, t, r.threads[t]);
    DrainsOn(r.sh, t, r.threads[t], next, s.sh.accepted, MidIn(r));
    InvKept(r, t, next);
    NothingBack(r.sh, t, r.threads[t], next);
    Drained(s.sh.accepted, r.sh, MidIn(r));
  }

  /** Whatever was accepted at some moment of a flush, up to where it has drained the queue, is
      processed, in order, when the call returns, whether it found the logger open or closed. The same
      holds of a close, and then the logger is closed. */
  lemma FlushReturns(n: nat, before: seq<Move>, during: seq<Move>, t: nat, next: Call)
    requires IsRun(Init(n), before)
    requires IsRun(After(Init(n), before), during) && Busy(After(Init(n), before), during, t)
    requires Underway(After(Init(n), before).threads[t])
    requires Returns(After(After(Init(n), before), during), t, next)
    ensures var s := After(Init(n), before); var r := Step(After(s, during), t, next);
      && s.sh.accepted <= r.sh.processed
      && (s.threads[t].c.CloseCall? ==> r.sh.closed && r.sh.dispatcherClosed && r.sh.accepted == r.sh.processed)
  {
    InitInv(n);
    RunKeeps(Init(n), before);
    DrainReturns(After(Init(n), before), during, t, next);
  }

  lemma Drained(covered: seq<Msg>, sh: Shared, mid: bool)
    requires covered <= sh.accepted && |covered| <= |sh.processed| && SharedOk(sh, mid)
    ensures covered <= sh.processed
  {
    assert sh.processed <= sh.accepted;
  }

  // ----- logging -----

  /** A log call on its way to the queue, having found the logger open. */
  predicate Logging(pc: Pc) {
    (pc.InnerChecking? || pc.WantQueue? || pc.Testing? || pc.Draining? || pc.Pushing?) && pc.c.Log?
  }

  /** The same call behind that. */
  predicate Logged(pc: Pc) { (pc.Leaving? || pc.Releasing?) && pc.c.Log? }

  /** While it holds the outer logger nobody else adds a message. */
  predicate WillLog(sh: Shared, pc: Pc, c: Call, was: seq<Msg>) {
    && c.Log?
    && if Logging(pc) then pc.c == c && sh.accepted == was
       else Logged(pc) && pc.c == c && sh.accepted == was + [c.msg]
  }

  lemma LogsOn(sh: Shared, t: nat, pc: Pc, next: Call, c: Call, was: seq<Msg>)
    requires WillLog(sh, pc, c, was) && !sh.innerClosed
    ensures var m := StepThread(sh, t, pc, next);
      if pc.Releasing? then (m.pc.Idle? || m.pc.WantInner?) && m.sh.accepted == sh.accepted
      else WillLog(m.sh, m.pc, c, was)
  {
  }

  lemma OthersWait(sh: Shared, t: nat, pc: Pc, u: nat, other: Pc, next: Call)
    requires ThreadOk(sh, t, pc) && HoldsOuter(pc) && ThreadOk(sh, u, other) && u != t
    ensures StepThread(sh, u, other, next).sh.accepted == sh.accepted
  {
  }

  /** During the run the thread holds the outer logger. */
  predicate Holding(s: State, moves: seq<Move>, t: nat)
    requires IsRun(s, moves)
    decreases |moves|
  {
    t < |s.threads| && HoldsOuter(s.threads[t]) &&
    (moves != [] ==> Holding(Step(s, moves[0].t, moves[0].next), moves[1..], t))
  }

  lemma {:induction false} RunLogs(s: State, moves: seq<Move>, t: nat, c: Call, was: seq<Msg>)
    requires IsRun(s, moves) && Inv(s) && Holding(s, moves, t) && WillLog(s.sh, s.threads[t], c, was)
    ensures var r := After(s, moves); t < |r.threads| && Inv(r) && WillLog(r.sh, r.threads[t], c, was)
    decreases |moves|
  {
    if moves != [] {
      var u, next := moves[0].t, moves[0].next;
      var n := Step(s, u, next);
      InvKept(s, u, next);
      if u == t {
        LogsOn(s.sh, t, s.threads[t], next, c, was);
        assert n.threads[t] == StepThread(s.sh, t, s.threads[t], next).pc;
        assert Holding(n, moves[1..], t);
      } else {
        OthersWait(s.sh, t, s.threads[t], u, s.threads[u], next);
      }
      RunLogs(n, moves[1..], t, c, was);
    }
  }

  /** A log call that finds the logger open: when it lets go of the outer logger, its message, and no
      other, has been accepted since it looked at the closed flag. */
  lemma LogAccepts(n: nat, before: seq<Move>, any: Call, during: seq<Move>, t: nat, next: Call)
    requires IsRun(Init(n), before)
    requires var s := After(Init(n), before);
      Can(s, t) && s.threads[t].Checking? && s.threads[t].c.Log? && !s.sh.closed
    requires var p := Step(After(Init(n), before), t, any);
      IsRun(p, during) && Holding(p, during, t) && Can(After(p, during), t)
    requires !HoldsOuter(Step(After(Step(After(Init(n), before), t, any), during), t, next).threads[t])
    ensures var s := After(Init(n), before); var r := Step(After(Step(s, t, any), during), t, next);
      r.sh.accepted == s.sh.accepted + [s.threads[t].c.msg]
  {
    InitInv(n);
    RunKeeps(Init(n), before);
    var s := After(Init(n), before);
    var p := Step(s, t, any);
    InvKept(s, t, any);
    assert p.threads[t] == InnerChecking(s.threads[t].c);
    RunLogs(p, during, t, s.threads[t].c, s.sh.accepted);
    var r := After(p, during);
    LogsOn(r.sh, t, r.threads[t], next, s.threads[t].c, s.sh.accepted);
  }

  // ----- whole calls -----

  /** The message has been accepted behind the first `k`, or the logger is closed. */
  predicate TakenSince(sh: Shared, k: nat, m: Msg) {
    sh.closed || exists i :: k <= i < |sh.accepted| && sh.accepted[i] == m
  }

  /** A log call from its start to its end. */
  predicate InCall(sh: Shared, pc: Pc, c: Call, k: nat) {
    && c.Log? && k <= |sh.accepted|
    && if pc.WantOuter? || pc.Checking? || Logging(pc) then pc.c == c
       else (InInner(pc) || (Logged(pc) && pc.c == c)) && TakenSince(sh, k, c.msg)
  }

  lemma TakenOn(sh: Shared, n: Shared, k: nat, m: Msg)
    requires TakenSince(sh, k, m) && sh.accepted <= n.accepted && (sh.closed ==> n.closed)
    ensures TakenSince(n, k, m) == true
  {
    if !sh.closed {
      var i :| k <= i < |sh.accepted| && sh.accepted[i] == m;
      assert n.accepted[i] == m;
    }
  }

  lemma PushTakes(sh: Shared, k: nat, m: Msg, n: Shared)
    requires k <= |sh.accepted| && n.accepted == sh.accepted + [m]
    ensures TakenSince(n, k, m) == true
  {
    assert n.accepted[|sh.accepted|] == m;
  }

  lemma CallOn(sh: Shared, t: nat, pc: Pc, next: Call, c: Call, k: nat)
    requires InCall(sh, pc, c, k) && !sh.innerClosed
    ensures var m := StepThread(sh, t, pc, next);
      if m.pc.Idle? then TakenSince(m.sh, k, c.msg) else InCall(m.sh, m.pc, c, k)
  {
    NothingBack(sh, t, pc, next);
    var n := StepThread(sh, t, pc, next).sh;
    if TakenSince(sh, k, c.msg) {
      TakenOn(sh, n, k, c.msg);
    }
    if pc.Pushing? {
      PushTakes(sh, k, c.msg, n);
    }
  }

  lemma {:induction false} RunInCall(s: State, moves: seq<Move>, t: nat, c: Call, k: nat)
    requires IsRun(s, moves) && Inv(s) && Busy(s, moves, t) && InCall(s.sh, s.threads[t], c, k)
    ensures var r := After(s, moves); t < |r.threads| && Inv(r) && InCall(r.sh, r.threads[t], c, k)
    decreases |moves|
  {
    if moves != [] {
      var u, next := moves[0].t, moves[0].next;
      var n := Step(s, u, next);
      InvKept(s, u, next);
      if u == t {
        CallOn(s.sh, t, s.threads[t], next, c, k);
        assert n.threads[t] == StepThread(s.sh, t, s.threads[t], next).pc;
        assert Busy(n, moves[1..], t);
      } else {
        OtherInCall(s.sh, u, s.threads[u], next, s.threads[t], c, k);
      }
      RunInCall(n, moves[1..], t, c, k);
    }
  }

  lemma OtherInCall(sh: Shared, u: nat, other: Pc, next: Call, pc: Pc, c: Call, k: nat)
    requires InCall(sh, pc, c, k)
    ensures InCall(StepThread(sh, u, other, next).sh, pc, c, k)
  {
    NothingBack(sh, u, other, next);
    if TakenSince(sh, k, c.msg) {
      TakenOn(sh, StepThread(sh, u, other, next).sh, k, c.msg);
    }
  }

  /** Every call, in every interleaving, from where it is made to where it returns: a flush, a close and
      a critical log have everything processed that was accepted before the call; a close leaves the
      logger closed; and a log at a used level has its message accepted, unless the logger is closed. */
  lemma CallReturns(n: nat, before: seq<Move>, c: Call, during: seq<Move>, t: nat, next: Call)
    requires IsRun(Init(n), before)
    requires var s := After(Init(n), before); Can(s, t) && s.threads[t].Idle?
    requires var p := Step(After(Init(n), before), t, c);
      IsRun(p, during) && Busy(p, during, t) && Returns(After(p, during), t, next)
    ensures var s := After(Init(n), before); var r := Step(After(Step(s, t, c), during), t, next);
      && ((c.Log? ==> c.critical) ==> s.sh.accepted <= r.sh.processed)
      && (c.CloseCall? ==> r.sh.closed && r.sh.accepted == r.sh.processed)
      && (c.Log? && !c.unused ==> TakenSince(r.sh, |s.sh.accepted|, c.msg))
  {
    InitInv(n);
    RunKeeps(Init(n), before);
    var s := After(Init(n), before);
    var p := Step(s, t, c);
    InvKept(s, t, c);
    if !c.Log? {
      DrainReturns(p, during, t, next);
    } else {
      if c.critical {
        FlushCovers(p, during, t, next, s.sh.accepted);
        RunOwes(p, during, t, s.sh.accepted);
        NothingBack(After(p, during).sh, t, After(p, during).threads[t], next);
      }
      if !c.unused {
        RunInCall(p, during, t, c, |s.sh.accepted|);
        var r := After(p, during);
        CallOn(r.sh, t, r.threads[t], next, c, |s.sh.accepted|);
      }
    }
  }

  /** A call that returns in its first step has nothing to do: it is a log, not critical, at an unused
      level. */
  lemma OnlyUnusedReturnsAtOnce(s: State, t: nat, c: Call)
    requires Can(s, t) && s.threads[t].Idle? && Step(s, t, c).threads[t].Idle?
    ensures c.Log? && c.unused && !c.critical && Step(s, t, c) == s
  {
    assert s.threads[t := s.threads[t]] == s.threads;
  }

  // ----- a log call at the queue -----

  /** The call has looked for room, and only adds its message. */
  predicate Adding(sh: Shared, pc: Pc, queue: seq<Msg>, processed: seq<Msg>) {
    && sh.processed == processed
    && if pc.Testing? then |queue| < MAX_QUEUE_SIZE && sh.queue == queue
       else if pc.Pushing? then sh.queue == queue
       else pc.Leaving? && pc.c.Log? && sh.queue == queue + [pc.c.msg]
  }

  lemma AddingOn(sh: Shared, t: nat, pc: Pc, next: Call, queue: seq<Msg>, processed: seq<Msg>)
    requires Adding(sh, pc, queue, processed) && CallOk(pc)
    ensures var m := StepThread(sh, t, pc, next); pc.Leaving? || Adding(m.sh, m.pc, queue, processed)
  {
  }

  lemma OthersLocked(sh: Shared, t: nat, pc: Pc, u: nat, other: Pc, next: Call)
    requires LocksOk(sh, t, pc) && HoldsLock(pc) && LocksOk(sh, u, other) && u != t && Enabled(sh, other)
    ensures var n := StepThread(sh, u, other, next).sh; n.queue == sh.queue && n.processed == sh.processed
  {
  }

  /** During the run the thread holds the queue lock. */
  predicate Locking(s: State, moves: seq<Move>, t: nat)
    requires IsRun(s, moves)
    decreases |moves|
  {
    t < |s.threads| && HoldsLock(s.threads[t]) &&
    (moves != [] ==> Locking(Step(s, moves[0].t, moves[0].next), moves[1..], t))
  }

  lemma {:induction false} RunAdds(s: State, moves: seq<Move>, t: nat, queue: seq<Msg>, processed: seq<Msg>)
    requires IsRun(s, moves) && Inv(s) && Locking(s, moves, t) && Adding(s.sh, s.threads[t], queue, processed)
    ensures var r := After(s, moves); t < |r.threads| && Adding(r.sh, r.threads[t], queue, processed)
    decreases |moves|
  {
    if moves != [] {
      var u, next := moves[0].t, moves[0].next;
      var n := Step(s, u, next);
      InvKept(s, u, next);
      if u == t {
        AddingOn(s.sh, t, s.threads[t], next, queue, processed);
        assert n.threads[t] == StepThread(s.sh, t, s.threads[t], next).pc;
        assert Locking(n, moves[1..], t);
      } else {
        OthersLocked(s.sh, t, s.threads[t], u, s.threads[u], next);
      }
      RunAdds(n, moves[1..], t, queue, processed);
    }
  }

  /** A log call that finds room in the queue processes nothing: when it is about to let go of the queue
      lock, the queue has its message more, and no message has been processed meanwhile. */
  lemma LogOnlyAdds(n: nat, before: seq<Move>, during: seq<Move>, t: nat)
    requires IsRun(Init(n), before)
    requires IsRun(After(Init(n), before), during) && Locking(After(Init(n), before), during, t)
    requires var s := After(Init(n), before); s.threads[t].Testing? && |s.sh.queue| < MAX_QUEUE_SIZE
    requires var r := After(After(Init(n), before), during); t < |r.threads| && r.threads[t].Leaving?
    ensures var s := After(Init(n), before); var r := After(s, during);
      r.sh.processed == s.sh.processed && r.threads[t].c.Log? && r.sh.queue == s.sh.queue + [r.threads[t].c.msg]
  {
    InitInv(n);
    RunKeeps(Init(n), before);
    var s := After(Init(n), before);
    RunAdds(s, during, t, s.sh.queue, s.sh.processed);
  }

  // ----- what is accepted -----

  /** The messages of the log calls at used levels that the run makes. */
  function Calls(s: State, moves: seq<Move>): set<Msg>
    requires IsRun(s, moves)
    decreases |moves|
  {
    if moves == [] then {}
    else
      var c := moves[0].next;
      (if s.threads[moves[0].t].Idle? && c.Log? && !c.unused then {c.msg} else {})
      + Calls(Step(s, moves[0].t, c), moves[1..])
  }

  /** Everything accepted, or on its way to be, is among `ms`. */
  predicate Within(s: State, ms: set<Msg>) {
    && (forall m | m in s.sh.accepted :: m in ms)
    && forall u | 0 <= u < |s.threads| :: Carries(s.threads[u], ms)
  }

  predicate Carries(pc: Pc, ms: set<Msg>) { (pc.WantOuter? || HoldsOuter(pc)) && pc.c.Log? ==> pc.c.msg in ms }

  lemma WithinOn(s: State, t: nat, next: Call, ms: set<Msg>, more: set<Msg>)
    requires Can(s, t) && Within(s, ms)
    requires more == ms + (if s.threads[t].Idle? && next.Log? && !next.unused then {next.msg} else {})
    ensures Within(Step(s, t, next), more)
  {
    ThreadWithin(s.sh, t, s.threads[t], next, ms, more);
    var n := Step(s, t, next);
    forall u | 0 <= u < |n.threads| ensures Carries(n.threads[u], more) {
      assert u != t ==> n.threads[u] == s.threads[u];
    }
  }

  lemma ThreadWithin(sh: Shared, t: nat, pc: Pc, next: Call, ms: set<Msg>, more: set<Msg>)
    requires Carries(pc, ms) && forall m | m in sh.accepted :: m in ms
    requires more == ms + (if pc.Idle? && next.Log? && !next.unused then {next.msg} else {})
    ensures var m := StepThread(sh, t, pc, next); Carries(m.pc, more) && forall x | x in m.sh.accepted :: x in more
  {
  }

  lemma {:induction false} RunWithin(s: State, moves: seq<Move>, ms: set<Msg>)
    requires IsRun(s, moves) && Within(s, ms)
    ensures Within(After(s, moves), ms + Calls(s, moves))
    decreases |moves|
  {
    if moves != [] {
      var t, c := moves[0].t, moves[0].next;
      var made := if s.threads[t].Idle? && c.Log? && !c.unused then {c.msg} else {};
      WithinOn(s, t, c, ms, ms + made);
      RunWithin(Step(s, t, c), moves[1..], ms + made);
      assert ms + made + Calls(Step(s, t, c), moves[1..]) == ms + Calls(s, moves);
    } else {
      assert ms + {} == ms;
    }
  }

  /** In every interleaving: only messages of log calls at used levels are accepted. */
  lemma AcceptedWasLogged(n: nat, moves: seq<Move>)
    requires IsRun(Init(n), moves)
    ensures forall m | m in After(Init(n), moves).sh.accepted :: m in Calls(Init(n), moves)
  {
    RunWithin(Init(n), moves, {});
    assert {} + Calls(Init(n), moves) == Calls(Init(n), moves);
  }

  // ----- the worker -----

  lemma {:induction false} RunJoins(s: State, a: seq<Move>, b: seq<Move>)
    requires IsRun(s, a) && IsRun(After(s, a), b)
    ensures IsRun(s, a + b) && After(s, a + b) == After(After(s, a), b)
    decreases |a|
  {
    if a == [] {
      assert a + b == b;
    } else {
      RunJoins(Step(s, a[0].t, a[0].next), a[1..], b);
      assert (a + b)[1..] == a[1..] + b;
    }
  }

  /** The worker alone moves. */
  predicate ByWorker(moves: seq<Move>) { forall i | 0 <= i < |moves| :: moves[i].t == 0 }

  /** The worker stands at the head of its loop and the logger is open. */
  predicate AtWork(s: State) { s.threads != [] && s.threads[0].WLoop? && s.sh.lock.Free? && !s.sh.closed }

  function WorkerAt(s: State, m: Moved): State
    requires s.threads != []
  { State(s.threads[0 := m.pc], m.sh) }

  /** Moves of the worker alone lead there. */
  predicate Works(s: State, moves: seq<Move>, m: Moved) {
    s.threads != [] && IsRun(s, moves) && ByWorker(moves) && After(s, moves) == WorkerAt(s, m)
  }

  lemma WorkerStep(s: State, moves: seq<Move>, m: Moved, n: Moved) returns (more: seq<Move>)
    requires Works(s, moves, m) && InWorker(m.pc) && Enabled(m.sh, m.pc) && n == StepWorker(m.sh, 0, m.pc)
    ensures Works(s, more, n) == true
  {
    var r, one := After(s, moves), [Move(0, FlushCall)];
    assert one[1..] == [] && IsRun(Step(r, 0, FlushCall), []);
    RunJoins(s, moves, one);
    more := moves + one;
  }

  /** The worker has the queue lock and is about to process. */
  lemma WorkerEnters(s: State) returns (moves: seq<Move>)
    requires AtWork(s) && s.sh.queue != []
    ensures Works(s, moves, Moved(WProcessing(false), s.sh.(lock := By(0)))) == true
  {
    var held := s.sh.(lock := By(0));
    assert WorkerAt(s, Moved(WLoop, s.sh)) == s;
    moves := WorkerStep(s, [], Moved(WLoop, s.sh), Moved(WWantQueue, s.sh));
    moves := WorkerStep(s, moves, Moved(WWantQueue, s.sh), Moved(WTesting, held));
    moves := WorkerStep(s, moves, Moved(WTesting, held), Moved(WChecking, held));
    moves := WorkerStep(s, moves, Moved(WChecking, held), Moved(WProcessing(false), held));
  }

  /** One round of the worker's loop. */
  lemma WorkerRound(s: State) returns (moves: seq<Move>)
    requires AtWork(s) && s.sh.queue != []
    ensures IsRun(s, moves) && ByWorker(moves)
    ensures After(s, moves) == s.(sh := s.sh.(queue := s.sh.queue[1..], processed := s.sh.processed + [s.sh.queue[0]]))
  {
    var held, q := s.sh.(lock := By(0)), s.sh.queue;
    var done := held.(processed := held.processed + [q[0]]);
    var less := done.(queue := q[1..]);
    moves := WorkerEnters(s);
    moves := WorkerStep(s, moves, Moved(WProcessing(false), held), Moved(WProcessing(true), done));
    moves := WorkerStep(s, moves, Moved(WProcessing(true), done), Moved(WLeaving(false), less));
    moves := WorkerStep(s, moves, Moved(WLeaving(false), less), Moved(WLoop, less.(lock := Free)));
  }

  /** Left alone, the worker processes the whole queue, in order. */
  lemma {:induction false} WorkerDrains(s: State) returns (moves: seq<Move>)
    requires AtWork(s)
    ensures IsRun(s, moves) && ByWorker(moves)
    ensures After(s, moves) == s.(sh := s.sh.(queue := [], processed := s.sh.processed + s.sh.queue))
    decreases |s.sh.queue|
  {
    moves := [];
    if s.sh.queue != [] {
      moves := WorkerRound(s);
      var r := After(s, moves);
      var more := WorkerDrains(r);
      RunJoins(s, moves, more);
      moves := moves + more;
      assert s.sh.processed + [s.sh.queue[0]] + s.sh.queue[1..] == s.sh.processed + s.sh.queue;
    } else {
      assert s.sh.processed + [] == s.sh.processed;
    }
  }

  /** The worker takes something up only when there is something. */
  predicate WorkOk(sh: Shared, pc: Pc) {
    (pc.WChecking? ==> sh.queue != [] || sh.closed) && (pc.WProcessing? ==> sh.queue != [])
  }

  lemma WorkMoves(sh: Shared, t: nat, pc: Pc, next: Call)
    requires WorkOk(sh, pc) && InWorker(pc)
    ensures var m := StepThread(sh, t, pc, next); WorkOk(m.sh, m.pc)
  {
  }

  lemma OnlyWorkerWorks(sh: Shared, t: nat, pc: Pc, next: Call)
    requires !InWorker(pc)
    ensures !InWorker(StepThread(sh, t, pc, next).pc)
  {
  }

  lemma WorkStays(sh: Shared, u: nat, other: Pc, next: Call, t: nat, pc: Pc)
    requires LocksOk(sh, t, pc) && LocksOk(sh, u, other) && u != t && Enabled(sh, other) && WorkOk(sh, pc)
    ensures WorkOk(StepThread(sh, u, other, next).sh, pc)
  {
    NothingBack(sh, u, other, next);
    if HoldsLock(pc) {
      OthersLocked(sh, t, pc, u, other, next);
    }
  }

  predicate AllWork(s: State) { forall t | 0 <= t < |s.threads| :: WorkOk(s.sh, s.threads[t]) }

  lemma WorkKept(s: State, u: nat, next: Call)
    requires Can(s, u) && Inv(s) && AllWork(s)
    ensures AllWork(Step(s, u, next))
  {
    var n := Step(s, u, next);
    forall t | 0 <= t < |s.threads| ensures WorkOk(n.sh, n.threads[t]) {
      assert ThreadOk(s.sh, t, s.threads[t]) && ThreadOk(s.sh, u, s.threads[u]) && WorkOk(s.sh, s.threads[t]);
      if t != u {
        WorkStays(s.sh, u, s.threads[u], next, t, s.threads[t]);
      } else if InWorker(s.threads[t]) {
        WorkMoves(s.sh, t, s.threads[t], next);
      } else {
        OnlyWorkerWorks(s.sh, t, s.threads[t], next);
      }
    }
  }

  lemma {:induction false} RunWorks(s: State, moves: seq<Move>)
    requires IsRun(s, moves) && Inv(s) && AllWork(s)
    ensures AllWork(After(s, moves))
    decreases |moves|
  {
    if moves != [] {
      WorkKept(s, moves[0].t, moves[0].next);
      InvKept(s, moves[0].t, moves[0].next);
      RunWorks(Step(s, moves[0].t, moves[0].next), moves[1..]);
    }
  }

  /** In every interleaving, and however often waiting ends without cause: the worker never takes an
      element from an empty queue. */
  lemma WorkerFindsWork(n: nat, moves: seq<Move>, t: nat)
    requires IsRun(Init(n), moves) && t < |After(Init(n), moves).threads|
    ensures var s := After(Init(n), moves); s.threads[t].WProcessing? ==> s.sh.queue != []
  {
    InitInv(n);
    var s := Init(n);
    forall u | 0 <= u < |s.threads| ensures WorkOk(s.sh, s.threads[u]) {
      assert s.threads[u] == (if u == 0 then WLoop else Idle);
    }
    RunWorks(s, moves);
  }
}
