/** What the callers of kernel/proc/kmutex.c may rely on: mutual exclusion over whole runs. */
module Exclusion {
  import opened Wrappers
  import opened Lists
  import opened Sched

  /** A call of kmutex_lock or kmutex_lock_cancellable that sleeps. */
  datatype Call = Call(m: Qid, cancellable: bool)

  /** t has locked m and was told so. */
  datatype Section = Section(t: Tid, m: Qid)

  /** A run as its threads see it: the calls that have not returned, and who is between a successful
      return of a lock and its unlock. */
  datatype History = History(state: State, calls: map<Tid, Call>, inside: set<Section>)

  /** A call returns when the thread runs on. kmutex_lock succeeds; kmutex_lock_cancellable does unless it
      finds the thread cancelled, at once or after having slept. */
  function Next(h: History, op: Op): History
    requires Enabled(h.state, op)
  {
    var s, r := h.state, Step(h.state, op);
    match op
    case Lock(m) =>
      if r.cur == s.cur then History(r, h.calls, h.inside + {Section(s.cur.value, m)})
      else History(r, h.calls[s.cur.value := Call(m, false)], h.inside)
    case LockCancellable(m) =>
      if r.cur == s.cur
      then History(r, h.calls, if s.holders[m].None? then h.inside + {Section(s.cur.value, m)} else h.inside)
      else History(r, h.calls[s.cur.value := Call(m, true)], h.inside)
    case Unlock(m) => History(r, h.calls, h.inside - {Section(s.cur.value, m)})
    case Dispatch =>
      if r.cur.Some? && r.cur.value in h.calls && r.cur.value in r.threads then
        var t := r.cur.value;
        var c := h.calls[t];
        History(r, h.calls - {t},
                if c.cancellable && r.threads[t].cancelled then h.inside else h.inside + {Section(t, c.m)})
      else History(r, h.calls, h.inside)
    case _ => History(r, h.calls, h.inside)
  }

  function Trace(s: State, ops: seq<Op>): History {
    if ops == [] then History(s, map[], {})
    else
      var h := Trace(s, ops[..|ops| - 1]);
      if Enabled(h.state, ops[|ops| - 1]) then Next(h, ops[|ops| - 1]) else h
  }

  /** A trace goes through the states of the run. */
  lemma {:induction false} TraceRuns(s: State, ops: seq<Op>)
    ensures Trace(s, ops).state == Run(s, ops)
  {
    if ops != [] { TraceRuns(s, ops[..|ops| - 1]); }
  }

  // ----- A thread that waits -----

  /** The thread of a call is waiting, or owns the mutex, or was cancelled where that ends the wait. */
  ghost predicate CallOk(s: State, c: Call, t: Tid) {
    && s.cur != Some(t) && c.m in s.holders && c.m in s.queues && t in s.threads
    && (|| (t in s.queues[c.m] && (!c.cancellable ==> s.threads[t].status == Sleeping))
        || s.holders[c.m] == Some(t)
        || (c.cancellable && s.threads[t].cancelled))
  }

  /** A waiter that goes on waiting stays in the state it went to sleep in. */
  lemma StatusStays(s: State, op: Op, m: Qid, t: Tid)
    requires Inv(s) && Enabled(s, op) && m in s.holders && m in s.queues && t in s.queues[m]
    requires m in Step(s, op).queues && t in Step(s, op).queues[m]
    ensures t in s.threads && t in Step(s, op).threads && Step(s, op).threads[t].status == s.threads[t].status
  {
    RunqFree(s);
    assert MutexOk(s, m) && QueueOk(s, m);
    assert ThreadOk(s, t, s.threads[t]);
    match op
    case WakeupOn(q) =>
      if s.queues[q] != [] {
        OldestIs(s, q);
        hide Inv, MutexOk;
      }
    case BroadcastOn(q) => DrainStatus(s, q, t);
    case Unlock(n) => if s.queues[n] != [] { UnlockStatus(s, n, m, t); }
    case _ => OtherStatus(s, op, t);
  }

  lemma OtherStatus(s: State, op: Op, t: Tid)
    requires Enabled(s, op) && t in s.threads && s.threads[t].wchan.Some? && s.threads[t].started && s.cur != Some(t)
    requires !op.WakeupOn? && !op.BroadcastOn? && !op.Unlock?
    ensures t in Step(s, op).threads && Step(s, op).threads[t].status == s.threads[t].status
  {
  }

  lemma UnlockStatus(s: State, n: Qid, m: Qid, t: Tid)
    requires Inv(s) && Enabled(s, Unlock(n)) && s.queues[n] != [] && m in s.holders && m in s.queues
    requires t in s.threads && t in s.queues[m] && t in Step(s, Unlock(n)).queues[m]
    ensures t in Step(s, Unlock(n)).threads && Step(s, Unlock(n)).threads[t].status == s.threads[t].status
  {
    OldestIs(s, n);
    assert QueueOk(s, m) && QueueOk(s, n);
    if t == Oldest(s, n) { WaiterStays(s, Unlock(n), m, t); }
    hide Inv;
  }

  lemma {:induction false} DrainStatus(s: State, q: Qid, t: Tid)
    requires Inv(s) && PlainQueue(s, q) && RUNQ in s.sizes && t in s.threads && s.threads[t].wchan != Some(q)
    ensures t in Drain(s, q).threads && Drain(s, q).threads[t].status == s.threads[t].status
    decreases |s.queues[q]|
  {
    if s.queues[q] != [] {
      RunqFree(s);
      OldestIs(s, q);
      WakeInv(s, q);
      WakeShrinks(s, q);
      DrainStatus(Wake(s, q), q, t);
    }
  }

  /** What holds of a waiting call goes on holding while its thread does not run. */
  lemma CallStep(s: State, op: Op, c: Call, t: Tid)
    requires Inv(s) && Enabled(s, op) && CallOk(s, c, t) && Step(s, op).cur != Some(t)
    ensures CallOk(Step(s, op), c, t)
  {
    hide Inv, Step, Enabled;
    CancelledStays(s, op, t);
    HoldersKept(s, op);
    MutexQueueMoves(s, op, c.m);
    if s.holders[c.m] == Some(t) {
      HolderStays(s, op, c.m, t);
    } else if t in s.queues[c.m] {
      if t in Step(s, op).queues[c.m] {
        StatusStays(s, op, c.m, t);
      } else {
        WaiterLeavesAsOwner(s, op, c.m, t);
      }
    }
  }

  /** When it runs again, the thread of a call owns the mutex unless its wait was cancelled. */
  lemma CallReturns(s: State, op: Op, c: Call, t: Tid)
    requires Inv(s) && Enabled(s, op) && CallOk(s, c, t) && Step(s, op).cur == Some(t)
    ensures var r := Step(s, op);
            c.m in r.holders && t in r.threads && (r.holders[c.m] == Some(t) || (c.cancellable &&
              r.threads[t].cancelled))
  {
    hide Inv, Step, Enabled;
    StepInv(s, op);
    CancelledStays(s, op, t);
    HoldersKept(s, op);
    MutexQueueMoves(s, op, c.m);
    RunsOnNoQueue(Step(s, op), c.m, t);
    if s.holders[c.m] == Some(t) {
      HolderStays(s, op, c.m, t);
    } else if t in s.queues[c.m] {
      WaiterLeavesAsOwner(s, op, c.m, t);
      CancelKeepsHolder(s, op, c.m, t);
    }
  }

  lemma RunsOnNoQueue(s: State, q: Qid, t: Tid)
    requires Inv(s) && s.cur == Some(t) && q in s.queues
    ensures t in s.threads && t !in s.queues[q]
  {
    assert ThreadOk(s, t, s.threads[t]) && QueueOk(s, q);
  }

  // ----- Mutual exclusion -----

  ghost predicate HistoryOk(h: History) {
    && Inv(h.state)
    && (forall t | t in h.calls :: CallOk(h.state, h.calls[t], t))
    && (forall x | x in h.inside :: x.m in h.state.holders && h.state.holders[x.m] == Some(x.t))
  }

  lemma CallsStep(h: History, op: Op)
    requires HistoryOk(h) && Enabled(h.state, op)
    ensures forall t | t in Next(h, op).calls :: CallOk(Next(h, op).state, Next(h, op).calls[t], t)
  {
    hide Inv, Enabled, CallOk;
    forall t | t in Next(h, op).calls
      ensures CallOk(Next(h, op).state, Next(h, op).calls[t], t)
    {
      if Blocks(h.state, op, t) {
        CallBegins(h.state, op, t);
      } else {
        assert t in h.calls && Next(h, op).calls[t] == h.calls[t];
        NotDispatched(h, op, t);
        CallStep(h.state, op, h.calls[t], t);
      }
    }
  }

  /** The running thread t calls a lock and goes to sleep. */
  predicate Blocks(s: State, op: Op, t: Tid) {
    Enabled(s, op) && (op.Lock? || op.LockCancellable?) && s.cur == Some(t) && Step(s, op).cur != Some(t)
  }

  lemma CallBegins(s: State, op: Op, t: Tid)
    requires Inv(s) && Blocks(s, op, t)
    ensures CallOk(Step(s, op), Call(op.m, op.LockCancellable?), t)
  {
    hide Inv;
  }

  /** The thread of a call that goes on does not run next. */
  lemma NotDispatched(h: History, op: Op, t: Tid)
    requires HistoryOk(h) && Enabled(h.state, op) && t in h.calls && t in Next(h, op).calls
    requires !Blocks(h.state, op, t)
    ensures Step(h.state, op).cur != Some(t)
  {
    var s := h.state;
    assert CallOk(s, h.calls[t], t);
    if op.BroadcastOn? { DrainInv(s, op.q); }
    if op.Dispatch? { OldestIs(s, RUNQ); }
    hide Inv;
  }

  lemma InsideStep(h: History, op: Op, x: Section)
    requires HistoryOk(h) && Enabled(h.state, op) && x in Next(h, op).inside
    ensures x.m in Step(h.state, op).holders && Step(h.state, op).holders[x.m] == Some(x.t)
  {
    var s := h.state;
    if x in h.inside && !(op == Unlock(x.m) && s.cur == Some(x.t)) {
      HolderStays(s, op, x.m, x.t);
    } else if op.Dispatch? {
      assert CallOk(s, h.calls[x.t], x.t);
      CallReturns(s, op, h.calls[x.t], x.t);
    } else {
      hide Inv;
    }
  }

  lemma HistoryStep(h: History, op: Op)
    requires HistoryOk(h) && Enabled(h.state, op)
    ensures HistoryOk(Next(h, op)) && Next(h, op).state == Step(h.state, op)
  {
    CallsStep(h, op);
    StepInv(h.state, op);
    hide Inv, Enabled, CallOk, Step;
    forall x | x in Next(h, op).inside
      ensures x.m in Step(h.state, op).holders && Step(h.state, op).holders[x.m] == Some(x.t)
    {
      InsideStep(h, op, x);
    }
  }

  lemma {:induction false} TraceOk(s: State, ops: seq<Op>)
    requires Initial(s)
    ensures HistoryOk(Trace(s, ops))
  {
    if ops == [] {
      RunInv(s, []);
    } else {
      TraceOk(s, ops[..|ops| - 1]);
      var h := Trace(s, ops[..|ops| - 1]);
      hide HistoryOk, Next;
      if Enabled(h.state, ops[|ops| - 1]) { HistoryStep(h, ops[|ops| - 1]); }
    }
  }

  /** Mutual exclusion: over every run, at most one thread is between a successful return of a lock of m
      and its unlock, and that thread is the holder, so its unlock is in order. */
  lemma MutualExclusion(s: State, ops: seq<Op>, m: Qid, t: Tid, u: Tid)
    requires Initial(s) && Section(t, m) in Trace(s, ops).inside && Section(u, m) in Trace(s, ops).inside
    ensures t == u
    ensures m in Run(s, ops).holders && Run(s, ops).holders[m] == Some(t)
    ensures Run(s, ops).cur == Some(t) ==> Enabled(Run(s, ops), Unlock(m))
  {
    TraceOk(s, ops);
    TraceRuns(s, ops);
    var r := Run(s, ops);
    RunqFree(r);
    assert MutexOk(r, m) && QueueOk(r, m) && ThreadOk(r, t, r.threads[t]);
  }

  /** A thread that waits in kmutex_lock, cancelled or not, runs on only as the owner. */
  lemma {:induction false} LockWaits(s: State, ops: seq<Op>, m: Qid, t: Tid)
    requires Inv(s) && m in s.holders && m in s.queues && t in s.queues[m] && t in s.threads
    requires s.threads[t].status == Sleeping && Away(s, ops, t)
    ensures var r := Run(s, ops);
            && Inv(r) && m in r.holders && m in r.queues && t in r.threads
            && ((t in r.queues[m] && r.threads[t].status == Sleeping) || r.holders[m] == Some(t))
    ensures Run(s, ops).cur == Some(t) ==> Run(s, ops).holders[m] == Some(t)
  {
    var c := Call(m, false);
    if ops == [] {
      assert ThreadOk(s, t, s.threads[t]) && QueueOk(s, m);
    } else {
      var r, op := Run(s, ops[..|ops| - 1]), ops[|ops| - 1];
      LockWaits(s, ops[..|ops| - 1], m, t);
      hide Inv, Enabled, Step, Away;
      if Enabled(r, op) {
        assert CallOk(r, c, t);
        StepInv(r, op);
        MutexQueueMoves(r, op, m);
        if Step(r, op).cur == Some(t) { CallReturns(r, op, c, t); } else { CallStep(r, op, c, t); }
      }
    }
  }

  // ----- A holder that is told -EINTR -----

  /** Thread 0 alone, with mutex 1 and wait queue 2. */
  function Alone(): State {
    State(map[RUNQ := [], 1 := [], 2 := []], map[RUNQ := 0, 1 := 0, 2 := 0],
          map[0 := Thread(None, Running, false, true)], Some(0), map[1 := None])
  }

  /** The queues, the two threads, who runs and who holds the mutex; whether thread 1 waits for it in
      kmutex_lock_cancellable. It was told of no lock. */
  ghost predicate Shows(h: History, runq: seq<Tid>, mutexq: seq<Tid>, waitq: seq<Tid>, a: Thread, b: Thread,
                        cur: Option<Tid>, holder: Option<Tid>, waits: bool)
  {
    var s := h.state;
    && s.queues.Keys == {RUNQ, 1, 2} && s.sizes.Keys == {RUNQ, 1, 2}
    && s.threads.Keys == {0, 1} && s.holders.Keys == {1}
    && s.queues[RUNQ] == runq && s.queues[1] == mutexq && s.queues[2] == waitq
    && s.threads[0] == a && s.threads[1] == b && s.cur == cur && s.holders[1] == holder
    && (if waits then 1 in h.calls && h.calls[1] == Call(1, true) else 1 !in h.calls)
    && Section(1, 1) !in h.inside
  }

  /** A thread that was not cancelled, on a queue or not. */
  function Runner(): Thread { Thread(None, Running, false, true) }

  function On(q: Qid, status: Status): Thread { Thread(Some(q), status, false, true) }

  /** The history after an operation, where it is possible. */
  function After(h: History, op: Op): History {
    if Enabled(h.state, op) then Next(h, op) else h
  }

  lemma TraceSnoc(s: State, ops: seq<Op>, op: Op)
    ensures Trace(s, ops + [op]) == After(Trace(s, ops), op)
  {
    assert (ops + [op])[..|ops|] == ops;
  }

  /** Thread 1 is made and put on the run queue. */
  lemma Made(h: History)
    requires h == History(Alone(), map[], {})
    ensures Shows(After(h, Create(1)),
                  [], [], [], Runner(), Thread(None, NoState, false, false), Some(0), None, false)
  {
  }

  lemma Begun(h: History)
    requires Shows(h, [], [], [], Runner(), Thread(None, NoState, false, false), Some(0), None, false)
    ensures Shows(After(h, Begin(1)),
                  [1], [], [], Runner(), On(RUNQ, NoState), Some(0), None, false)
  {
  }

  /** Thread 0 takes the mutex and sleeps. */
  lemma Locked(h: History)
    requires Shows(h, [1], [], [], Runner(), On(RUNQ, NoState), Some(0), None, false)
    ensures Shows(After(h, Lock(1)),
                  [1], [], [], Runner(), On(RUNQ, NoState), Some(0), Some(0), false)
  {
  }

  lemma Slept(h: History)
    requires Shows(h, [1], [], [], Runner(), On(RUNQ, NoState), Some(0), Some(0), false)
    ensures Shows(After(h, SleepOn(2)),
                  [1], [], [0], On(2, Sleeping), On(RUNQ, NoState), None, Some(0), false)
  {
  }

  /** Thread 1 runs and waits for the mutex. */
  lemma Dispatched(h: History)
    requires Shows(h, [1], [], [0], On(2, Sleeping), On(RUNQ, NoState), None, Some(0), false)
    ensures Shows(After(h, Dispatch),
                  [], [], [0], On(2, Sleeping), Thread(None, NoState, false, true), Some(1), Some(0), false)
  {
  }

  lemma Waited(h: History)
    requires Shows(h, [], [], [0], On(2, Sleeping), Thread(None, NoState, false, true), Some(1), Some(0), false)
    ensures Shows(After(h, LockCancellable(1)),
                  [], [1], [0], On(2, Sleeping), On(1, SleepingCancellable), None, Some(0), true)
  {
  }

  /** Thread 0 wakes and runs. */
  lemma Woken(h: History)
    requires Shows(h, [], [1], [0], On(2, Sleeping), On(1, SleepingCancellable), None, Some(0), true)
    ensures Shows(After(h, WakeupOn(2)),
                  [0], [1], [], On(RUNQ, Running), On(1, SleepingCancellable), None, Some(0), true)
  {
  }

  lemma Resumed(h: History)
    requires Shows(h, [0], [1], [], On(RUNQ, Running), On(1, SleepingCancellable), None, Some(0), true)
    ensures Shows(After(h, Dispatch),
                  [], [1], [], Runner(), On(1, SleepingCancellable), Some(0), Some(0), true)
  {
  }

  /** It unlocks, which hands the mutex over, and then cancels thread 1. */
  lemma Handed(h: History)
    requires Shows(h, [], [1], [], Runner(), On(1, SleepingCancellable), Some(0), Some(0), true)
    ensures Shows(After(h, Unlock(1)),
                  [1], [], [], Runner(), On(RUNQ, Running), Some(0), Some(1), true)
  {
  }

  lemma Flagged(h: History)
    requires Shows(h, [1], [], [], Runner(), On(RUNQ, Running), Some(0), Some(1), true)
    ensures Shows(After(h, Cancel(1)),
                  [1], [], [], Runner(), Thread(Some(RUNQ), Running, true, true), Some(0), Some(1), true)
  {
  }

  /** It sleeps, and the call of thread 1 returns. */
  lemma Parted(h: History)
    requires Shows(h, [1], [], [], Runner(), Thread(Some(RUNQ), Running, true, true), Some(0), Some(1), true)
    ensures Shows(After(h, SleepOn(2)),
                  [1], [], [0], On(2, Sleeping), Thread(Some(RUNQ), Running, true, true), None, Some(1), true)
  {
  }

  lemma Returned(h: History)
    requires Shows(h, [1], [], [0], On(2, Sleeping), Thread(Some(RUNQ), Running, true, true), None, Some(1), true)
    ensures Shows(After(h, Dispatch),
                  [], [], [0], On(2, Sleeping), Thread(None, Running, true, true), Some(1), Some(1), false)
  {
  }

  lemma ThreeMore(s: State, ops: seq<Op>, a: Op, b: Op, c: Op)
    ensures Trace(s, ops + [a, b, c]) == After(After(After(Trace(s, ops), a), b), c)
  {
    hide After, Trace;
    TraceSnoc(s, ops, a);
    TraceSnoc(s, ops + [a], b);
    TraceSnoc(s, ops + [a] + [b], c);
    assert ops + [a] + [b] + [c] == ops + [a, b, c];
  }

  /** Thread 0 makes thread 1 and takes the mutex. */
  const TAKE: seq<Op> := [] + [Create(1), Begin(1), Lock(1)]

  /** It sleeps, and thread 1 waits for the mutex. */
  const WAIT: seq<Op> := TAKE + [SleepOn(2), Dispatch, LockCancellable(1)]

  /** Thread 0 wakes, and hands the mutex over. */
  const HAND: seq<Op> := WAIT + [WakeupOn(2), Dispatch, Unlock(1)]

  /** It cancels thread 1 and sleeps, and the call of thread 1 returns. */
  const BACK: seq<Op> := HAND + [Cancel(1), SleepOn(2), Dispatch]

  lemma AfterTake()
    ensures Shows(Trace(Alone(), TAKE), [1], [], [], Runner(), On(RUNQ, NoState), Some(0), Some(0), false)
  {
    var s, h := Alone(), Trace(Alone(), []);
    assert h == History(s, map[], {});
    hide Shows, After, Trace, Alone;
    ThreeMore(s, [], Create(1), Begin(1), Lock(1));
    Made(h);
    Begun(After(h, Create(1)));
    Locked(After(After(h, Create(1)), Begin(1)));
  }

  lemma AfterWait()
    ensures Shows(Trace(Alone(), WAIT),
                  [], [1], [0], On(2, Sleeping), On(1, SleepingCancellable), None, Some(0), true)
  {
    hide Shows, After, Trace, Alone;
    var s, h := Alone(), Trace(Alone(), TAKE);
    AfterTake();
    ThreeMore(s, TAKE, SleepOn(2), Dispatch, LockCancellable(1));
    Slept(h);
    Dispatched(After(h, SleepOn(2)));
    Waited(After(After(h, SleepOn(2)), Dispatch));
  }

  lemma AfterHand()
    ensures Shows(Trace(Alone(), HAND), [1], [], [], Runner(), On(RUNQ, Running), Some(0), Some(1), true)
  {
    hide Shows, After, Trace, Alone;
    var s, h := Alone(), Trace(Alone(), WAIT);
    AfterWait();
    ThreeMore(s, WAIT, WakeupOn(2), Dispatch, Unlock(1));
    Woken(h);
    Resumed(After(h, WakeupOn(2)));
    Handed(After(After(h, WakeupOn(2)), Dispatch));
  }

  lemma AfterBack()
    ensures Shows(Trace(Alone(), BACK),
                  [], [], [0], On(2, Sleeping), Thread(None, Running, true, true), Some(1), Some(1), false)
  {
    hide Shows, After, Trace, Alone;
    var s, h := Alone(), Trace(Alone(), HAND);
    AfterHand();
    ThreeMore(s, HAND, Cancel(1), SleepOn(2), Dispatch);
    Flagged(h);
    Parted(After(h, Cancel(1)));
    Returned(After(After(h, Cancel(1)), SleepOn(2)));
  }

  /** A run from the start in which kmutex_lock_cancellable returns -EINTR to thread 1 while it holds the
      mutex: the call that waited at the hand-over is over, the thread runs, was cancelled and told of no
      lock, and yet is the holder. */
  lemma InterruptedHolder()
    ensures Initial(Alone())
    ensures var h := Trace(Alone(), HAND); 1 in h.calls && h.calls[1] == Call(1, true)
    ensures var h := Trace(Alone(), BACK);
            && h.state == Run(Alone(), BACK) && 1 !in h.calls && Section(1, 1) !in h.inside
            && h.state.cur == Some(1) && 1 in h.state.threads && h.state.threads[1].cancelled
            && 1 in h.state.holders && h.state.holders[1] == Some(1)
  {
    hide After, Trace, Run;
    AfterHand();
    AfterBack();
    TraceRuns(Alone(), BACK);
  }
}
