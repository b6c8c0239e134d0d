/** Threads, queues and hand-off mutexes (kernel/proc/sched.c, sched_helper.c, kmutex.c, kthread.c). */
module Sched {
  import opened Wrappers
  import opened Lists

  type Tid = nat
  type Qid = nat

  const RUNQ: Qid := 0

  datatype Status = NoState | Running | Sleeping | SleepingCancellable | Exited

  /** wchan is the queue a thread is on. A thread is started once it was made runnable. */
  datatype Thread = Thread(wchan: Option<Qid>, status: Status, cancelled: bool, started: bool)

  /** Queues have the newest thread first and hand out the oldest. cur is the running thread, or
      nothing while sched_switch waits for the run queue to fill. A mutex is named by its wait queue. */
  datatype State = State(queues: map<Qid, seq<Tid>>, sizes: map<Qid, int>, threads: map<Tid, Thread>,
                         cur: Option<Tid>, holders: map<Qid, Option<Tid>>)

  // ----- Queue operations -----

  function SetThread(s: State, t: Tid, x: Thread): State {
    State(s.queues, s.sizes, s.threads[t := x], s.cur, s.holders)
  }

  predicate CanEnqueue(s: State, q: Qid, t: Tid) {
    q in s.queues && q in s.sizes && t in s.threads && s.threads[t].wchan == None
  }

  /** ktqueue_enqueue */
  function Enqueue(s: State, q: Qid, t: Tid): State
    requires CanEnqueue(s, q, t)
  {
    State(s.queues[q := [t] + s.queues[q]], s.sizes[q := s.sizes[q] + 1],
          s.threads[t := s.threads[t].(wchan := Some(q))], s.cur, s.holders)
  }

  /** ktqueue_remove; ktqueue_dequeue does the same to the thread at the end. */
  function Remove(s: State, q: Qid, t: Tid): State
    requires q in s.queues && q in s.sizes && t in s.threads
  {
    State(s.queues[q := Without(s.queues[q], t)], s.sizes[q := s.sizes[q] - 1],
          s.threads[t := s.threads[t].(wchan := None)], s.cur, s.holders)
  }

  function Oldest(s: State, q: Qid): Tid
    requires q in s.queues && s.queues[q] != []
  {
    s.queues[q][|s.queues[q]| - 1]
  }

  // ----- The invariant -----

  /** A queue lists, each once, exactly the threads whose wchan names it, and its size is right. */
  ghost predicate QueueOk(s: State, q: Qid)
    requires q in s.queues
  {
    && q in s.sizes && s.sizes[q] == |s.queues[q]| && NoDup(s.queues[q])
    && forall t :: t in s.queues[q] <==> t in s.threads && s.threads[t].wchan == Some(q)
  }

  /** A started, unexited thread runs or is on a queue; no other thread is on one. */
  predicate ThreadOk(s: State, t: Tid, x: Thread) {
    && (s.cur == Some(t) ==> x.wchan == None && x.started && x.status != Exited)
    && (x.started && x.status != Exited && s.cur != Some(t) ==> x.wchan.Some?)
    && (!x.started || x.status == Exited ==> x.wchan == None)
    && (x.wchan.Some? ==> x.wchan.value in s.queues)
    && (x.status == Sleeping || x.status == SleepingCancellable ==> x.started)
    && (x.wchan.Some? && x.wchan.value != RUNQ ==> x.status == Sleeping || x.status == SleepingCancellable)
  }

  /** The holder of a mutex does not wait for it, and nobody waits for a free mutex. */
  ghost predicate MutexOk(s: State, m: Qid)
    requires m in s.holders
  {
    && m in s.queues && m != RUNQ
    && (s.holders[m].None? ==> s.queues[m] == [])
    && (s.holders[m].Some? ==> s.holders[m].value in s.threads && s.holders[m].value !in s.queues[m])
  }

  ghost predicate Inv(s: State) {
    && RUNQ in s.queues && (s.cur.Some? ==> s.cur.value in s.threads)
    && (forall q | q in s.queues :: QueueOk(s, q))
    && (forall t | t in s.threads :: ThreadOk(s, t, s.threads[t]))
    && (forall m | m in s.holders :: MutexOk(s, m))
  }

  // ----- Steps -----

  datatype Op =
    | Create(t: Tid)              // kthread_create
    | Begin(t: Tid)               // sched_make_runnable on a new thread
    | SleepOn(q: Qid)
    | CancellableSleepOn(q: Qid)
    | WakeupOn(q: Qid)            // also from an interrupt
    | BroadcastOn(q: Qid)
    | Cancel(t: Tid)
    | Lock(m: Qid)
    | LockCancellable(m: Qid)
    | Unlock(m: Qid)
    | Exit
    | Dispatch                    // sched_switch goes on once the run queue is not empty

  /** A wait queue that is neither the run queue nor that of a mutex. */
  predicate PlainQueue(s: State, q: Qid) {
    q in s.queues && q in s.sizes && q != RUNQ && q !in s.holders
  }

  predicate IsMutex(s: State, m: Qid) {
    m in s.holders && m in s.queues && m in s.sizes
  }

  predicate Runs(s: State, t: Tid) {
    s.cur == Some(t) && t in s.threads && s.threads[t].wchan == None
  }

  predicate Enabled(s: State, op: Op) {
    RUNQ in s.queues && RUNQ in s.sizes &&
    match op
    case Create(t) => t !in s.threads
    case Begin(t) => t in s.threads && !s.threads[t].started && s.threads[t].wchan == None &&
      s.threads[t].status != Exited
    case SleepOn(q) => s.cur.Some? && Runs(s, s.cur.value) && PlainQueue(s, q)
    case CancellableSleepOn(q) => s.cur.Some? && Runs(s, s.cur.value) && PlainQueue(s, q)
    case WakeupOn(q) => PlainQueue(s, q)
    case BroadcastOn(q) => PlainQueue(s, q)
    case Cancel(t) => t in s.threads && s.cur.Some? && s.cur != Some(t)
    case Lock(m) => s.cur.Some? && Runs(s, s.cur.value) && IsMutex(s, m) && s.holders[m] != s.cur
    case LockCancellable(m) => s.cur.Some? && Runs(s, s.cur.value) && IsMutex(s, m) && s.holders[m] != s.cur
    case Unlock(m) => s.cur.Some? && Runs(s, s.cur.value) && IsMutex(s, m) && s.holders[m] == s.cur
    case Exit => s.cur.Some? && Runs(s, s.cur.value)
    case Dispatch => s.cur.None? && s.queues[RUNQ] != []
  }

  /** sched_sleep_on and the waiting part of sched_switch. */
  function Sleep(s: State, q: Qid, status: Status): State
    requires s.cur.Some? && Runs(s, s.cur.value) && q in s.queues && q in s.sizes
  {
    var t := s.cur.value;
    var r := Enqueue(SetThread(s, t, s.threads[t].(status := status)), q, t);
    State(r.queues, r.sizes, r.threads, None, r.holders)
  }

  /** sched_wakeup_on a queue that is not empty. */
  function Wake(s: State, q: Qid): State
    requires q in s.queues && q in s.sizes && s.queues[q] != [] && RUNQ in s.queues && RUNQ in s.sizes
    requires Oldest(s, q) in s.threads
  {
    var t := Oldest(s, q);
    var r := Remove(s, q, t);
    Enqueue(SetThread(r, t, r.threads[t].(status := Running)), RUNQ, t)
  }

  /** sched_cancel: only a cancellable sleeper is taken off its queue; its state stays as it is. */
  function CancelThread(s: State, t: Tid): State
    requires t in s.threads && RUNQ in s.queues && RUNQ in s.sizes
  {
    var x := s.threads[t];
    var r := SetThread(s, t, x.(cancelled := true));
    if x.status == SleepingCancellable && x.wchan.Some? && x.wchan.value in s.queues && x.wchan.value in s.sizes
    then Enqueue(Remove(r, x.wchan.value, t), RUNQ, t)
    else r
  }

  function SetHolder(s: State, m: Qid, h: Option<Tid>): State {
    State(s.queues, s.sizes, s.threads, s.cur, s.holders[m := h])
  }

  /** kmutex_unlock: the oldest waiter gets the mutex and becomes runnable. */
  function Release(s: State, m: Qid): State
    requires IsMutex(s, m) && RUNQ in s.queues && RUNQ in s.sizes
    requires s.queues[m] != [] ==> Oldest(s, m) in s.threads
  {
    if s.queues[m] == [] then SetHolder(s, m, None) else SetHolder(Wake(s, m), m, Some(Oldest(s, m)))
  }

  function Drain(s: State, q: Qid): State
    requires RUNQ in s.queues && RUNQ in s.sizes && q in s.queues && q in s.sizes
    decreases |s.queues[q]|
  {
    if s.queues[q] == [] || Oldest(s, q) !in s.threads || |Wake(s, q).queues[q]| >= |s.queues[q]| then s
    else Drain(Wake(s, q), q)
  }

  function Step(s: State, op: Op): State
    requires Enabled(s, op)
  {
    match op
    case Create(t) => SetThread(s, t, Thread(None, NoState, false, false))
    case Begin(t) => Enqueue(SetThread(s, t, s.threads[t].(started := true)), RUNQ, t)
    case SleepOn(q) => Sleep(s, q, Sleeping)
    case CancellableSleepOn(q) => if s.threads[s.cur.value].cancelled then s else Sleep(s, q, SleepingCancellable)
    case WakeupOn(q) => if s.queues[q] == [] || Oldest(s, q) !in s.threads then s else Wake(s, q)
    case BroadcastOn(q) => Drain(s, q)
    case Cancel(t) => CancelThread(s, t)
    case Lock(m) => if s.holders[m].None? then SetHolder(s, m, s.cur) else Sleep(s, m, Sleeping)
    case LockCancellable(m) =>
      if s.holders[m].None? then SetHolder(s, m, s.cur)
      else if s.threads[s.cur.value].cancelled then s
      else Sleep(s, m, SleepingCancellable)
    case Unlock(m) => if s.queues[m] != [] && Oldest(s, m) !in s.threads then s else Release(s, m)
    case Exit =>
      State(s.queues, s.sizes, s.threads[s.cur.value := s.threads[s.cur.value].(status := Exited)], None, s.holders)
    case Dispatch =>
      var t := Oldest(s, RUNQ);
      if t !in s.threads then s
      else
        var r := Remove(s, RUNQ, t);
        State(r.queues, r.sizes, r.threads, Some(t), r.holders)
  }

  // ----- Every step keeps the invariant -----

  /** Thread t is between two queues: everything holds but that t should be on one. */
  ghost predicate Limbo(s: State, t: Tid) {
    && RUNQ in s.queues && t in s.threads && s.threads[t].wchan == None && s.cur != Some(t)
    && (s.cur.Some? ==> s.cur.value in s.threads)
    && (forall q | q in s.queues :: QueueOk(s, q))
    && (forall u | u in s.threads && u != t :: ThreadOk(s, u, s.threads[u]))
    && (forall m | m in s.holders :: MutexOk(s, m))
  }

  lemma EnqueueInv(s: State, q: Qid, t: Tid)
    requires Limbo(s, t) && CanEnqueue(s, q, t) && s.threads[t].started && s.threads[t].status != Exited
    requires q != RUNQ ==> s.threads[t].status == Sleeping || s.threads[t].status == SleepingCancellable
    requires q in s.holders ==> s.holders[q].Some? && s.holders[q] != Some(t)
    ensures Inv(Enqueue(s, q, t))
  {
    var r := Enqueue(s, q, t);
    forall p | p in r.queues
      ensures QueueOk(r, p)
    {
      assert QueueOk(s, p);
    }
    forall m | m in r.holders
      ensures MutexOk(r, m)
    {
      assert MutexOk(s, m);
    }
    forall u | u in r.threads
      ensures ThreadOk(r, u, r.threads[u])
    {
      assert u != t ==> ThreadOk(s, u, s.threads[u]);
    }
  }

  lemma RemoveLimbo(s: State, q: Qid, t: Tid)
    requires Inv(s) && t in s.threads && s.threads[t].wchan == Some(q) && q in s.queues && q in s.sizes
    ensures Limbo(Remove(s, q, t), t)
  {
    var r := Remove(s, q, t);
    assert ThreadOk(s, t, s.threads[t]) && QueueOk(s, q);
    WithoutNoDup(s.queues[q], t);
    forall u
      ensures u in r.queues[q] <==> u in s.queues[q] && u != t
    {
      WithoutHas(s.queues[q], t, u);
    }
    forall p | p in r.queues
      ensures QueueOk(r, p)
    {
      assert QueueOk(s, p);
    }
    forall m | m in r.holders
      ensures MutexOk(r, m)
    {
      assert MutexOk(s, m);
      if s.holders[m].None? { assert s.queues[m] == [] && Without([], t) == []; }
    }
    forall u | u in r.threads && u != t
      ensures ThreadOk(r, u, r.threads[u])
    {
      assert ThreadOk(s, u, s.threads[u]);
    }
  }

  /** Changing what a thread in limbo says about itself. */
  lemma LimboThread(s: State, t: Tid, x: Thread)
    requires Limbo(s, t) && x.wchan == None
    ensures Limbo(SetThread(s, t, x), t)
  {
    var r := SetThread(s, t, x);
    forall p | p in r.queues ensures QueueOk(r, p) { assert QueueOk(s, p); }
    forall m | m in r.holders ensures MutexOk(r, m) { assert MutexOk(s, m); }
    forall u | u in r.threads && u != t ensures ThreadOk(r, u, r.threads[u]) { assert ThreadOk(s, u, s.threads[u]); }
  }

  /** The running thread stops running. */
  lemma StopLimbo(s: State)
    requires Inv(s) && s.cur.Some?
    ensures Limbo(State(s.queues, s.sizes, s.threads, None, s.holders), s.cur.value)
  {
    var r := State(s.queues, s.sizes, s.threads, None, s.holders);
    assert ThreadOk(s, s.cur.value, s.threads[s.cur.value]);
    forall p | p in r.queues ensures QueueOk(r, p) { assert QueueOk(s, p); }
    forall m | m in r.holders ensures MutexOk(r, m) { assert MutexOk(s, m); }
    forall u | u in r.threads && u != s.cur.value
      ensures ThreadOk(r, u, r.threads[u]) { assert ThreadOk(s, u, s.threads[u]); }
  }

  lemma SleepInv(s: State, q: Qid, status: Status)
    requires Inv(s) && s.cur.Some? && Runs(s, s.cur.value) && q in s.queues && q in s.sizes && q != RUNQ
    requires status == Sleeping || status == SleepingCancellable
    requires q in s.holders ==> s.holders[q].Some? && s.holders[q] != s.cur
    ensures Inv(Sleep(s, q, status))
  {
    var t := s.cur.value;
    assert ThreadOk(s, t, s.threads[t]);
    var r := State(s.queues, s.sizes, s.threads, None, s.holders);
    StopLimbo(s);
    LimboThread(r, t, s.threads[t].(status := status));
    EnqueueInv(SetThread(r, t, s.threads[t].(status := status)), q, t);
    assert Sleep(s, q, status) == Enqueue(SetThread(r, t, s.threads[t].(status := status)), q, t);
  }

  lemma OldestIs(s: State, q: Qid)
    requires Inv(s) && q in s.queues && s.queues[q] != []
    ensures q in s.sizes && Oldest(s, q) in s.threads && s.threads[Oldest(s, q)].wchan == Some(q)
    ensures ThreadOk(s, Oldest(s, q), s.threads[Oldest(s, q)])
    ensures s.cur != Some(Oldest(s, q)) && s.threads[Oldest(s, q)].started && s.threads[Oldest(s, q)].status != Exited
  {
    assert QueueOk(s, q);
    assert Oldest(s, q) in s.queues[q];
    assert ThreadOk(s, Oldest(s, q), s.threads[Oldest(s, q)]);
  }

  lemma WakeInv(s: State, q: Qid)
    requires Inv(s) && q in s.queues && s.queues[q] != [] && RUNQ !in s.holders
    ensures q in s.sizes && RUNQ in s.sizes && Oldest(s, q) in s.threads && Inv(Wake(s, q))
  {
    var t := Oldest(s, q);
    OldestIs(s, q);
    assert QueueOk(s, RUNQ);
    RemoveLimbo(s, q, t);
    var r := Remove(s, q, t);
    LimboThread(r, t, r.threads[t].(status := Running));
    EnqueueInv(SetThread(r, t, r.threads[t].(status := Running)), RUNQ, t);
  }

  lemma RunqFree(s: State)
    requires Inv(s)
    ensures RUNQ !in s.holders && RUNQ in s.sizes
  {
    assert QueueOk(s, RUNQ);
    assert RUNQ in s.holders ==> MutexOk(s, RUNQ);
  }

  lemma CancelSleeper(s: State, t: Tid)
    requires Inv(s) && t in s.threads && s.threads[t].status == SleepingCancellable && s.cur != Some(t)
    ensures RUNQ in s.sizes && Inv(CancelThread(s, t))
    ensures s.threads[t].wchan.Some? && s.threads[t].wchan.value in s.queues && s.threads[t].wchan.value in s.sizes
  {
    RunqFree(s);
    var x := s.threads[t];
    assert ThreadOk(s, t, x);
    var q := x.wchan.value;
    assert QueueOk(s, q);
    FlagInv(s, t);
    hide Inv, Limbo;
    var r := SetThread(s, t, x.(cancelled := true));
    RemoveLimbo(r, q, t);
    EnqueueInv(Remove(r, q, t), RUNQ, t);
  }

  lemma CancelInv(s: State, t: Tid)
    requires Inv(s) && Enabled(s, Cancel(t))
    ensures Inv(Step(s, Cancel(t)))
  {
    hide Inv;
    if s.threads[t].status == SleepingCancellable { CancelSleeper(s, t); } else { FlagInv(s, t); }
  }

  lemma FlagInv(s: State, t: Tid)
    requires Inv(s) && t in s.threads
    ensures Inv(SetThread(s, t, s.threads[t].(cancelled := true)))
  {
    var r := SetThread(s, t, s.threads[t].(cancelled := true));
    forall p | p in r.queues ensures QueueOk(r, p) { assert QueueOk(s, p); }
    forall m | m in r.holders ensures MutexOk(r, m) { assert MutexOk(s, m); }
    forall u | u in r.threads ensures ThreadOk(r, u, r.threads[u]) { assert ThreadOk(s, u, s.threads[u]); }
  }

  /** A mutex changes hands. */
  lemma HolderInv(s: State, m: Qid, h: Option<Tid>)
    requires Inv(s) && m in s.holders
    requires h.None? ==> s.queues[m] == []
    requires h.Some? ==> h.value in s.threads && h.value !in s.queues[m]
    ensures Inv(SetHolder(s, m, h))
  {
    var r := SetHolder(s, m, h);
    forall p | p in r.queues ensures QueueOk(r, p) { assert QueueOk(s, p); }
    forall n | n in r.holders ensures MutexOk(r, n) { assert n in s.holders && MutexOk(s, n); }
    forall u | u in r.threads ensures ThreadOk(r, u, r.threads[u]) { assert ThreadOk(s, u, s.threads[u]); }
  }

  lemma UnlockInv(s: State, m: Qid)
    requires Inv(s) && Enabled(s, Unlock(m))
    ensures Inv(Step(s, Unlock(m)))
  {
    RunqFree(s);
    assert MutexOk(s, m);
    if s.queues[m] == [] {
      HolderInv(s, m, None);
    } else {
      WakeInv(s, m);
      var t := Oldest(s, m);
      assert QueueOk(Wake(s, m), m);
      HolderInv(Wake(s, m), m, Some(t));
    }
  }

  lemma WakeShrinks(s: State, q: Qid)
    requires Inv(s) && q in s.queues && s.queues[q] != [] && q != RUNQ && RUNQ in s.sizes && q in s.sizes &&
             Oldest(s, q) in s.threads
    ensures Wake(s, q).queues[q] == Without(s.queues[q], Oldest(s, q))
    ensures |Wake(s, q).queues[q]| < |s.queues[q]| && Wake(s, q).queues.Keys == s.queues.Keys
    ensures Wake(s, q).sizes.Keys == s.sizes.Keys && Wake(s, q).holders == s.holders && Wake(s, q).cur == s.cur
  {
    assert QueueOk(s, q);
    WithoutNoDup(s.queues[q], Oldest(s, q));
  }

  lemma {:induction false} DrainInv(s: State, q: Qid)
    requires Inv(s) && PlainQueue(s, q) && RUNQ in s.sizes
    ensures Inv(Drain(s, q)) && q in Drain(s, q).queues && Drain(s, q).queues[q] == []
    ensures Drain(s, q).holders == s.holders && Drain(s, q).cur == s.cur
    decreases |s.queues[q]|
  {
    if s.queues[q] != [] {
      RunqFree(s);
      WakeInv(s, q);
      WakeShrinks(s, q);
      DrainInv(Wake(s, q), q);
    }
  }

  lemma CreateInv(s: State, t: Tid)
    requires Inv(s) && t !in s.threads
    ensures Inv(Step(s, Create(t)))
  {
    var r := SetThread(s, t, Thread(None, NoState, false, false));
    forall p | p in r.queues ensures QueueOk(r, p) { assert QueueOk(s, p); }
    forall m | m in r.holders ensures MutexOk(r, m) { assert MutexOk(s, m); }
    forall u | u in r.threads ensures ThreadOk(r, u, r.threads[u]) { assert u != t ==> ThreadOk(s, u, s.threads[u]); }
  }

  lemma BeginInv(s: State, t: Tid)
    requires Inv(s) && Enabled(s, Begin(t))
    ensures Inv(Step(s, Begin(t)))
  {
    RunqFree(s);
    assert ThreadOk(s, t, s.threads[t]);
    assert Limbo(s, t);
    LimboThread(s, t, s.threads[t].(started := true));
    EnqueueInv(SetThread(s, t, s.threads[t].(started := true)), RUNQ, t);
  }

  lemma ExitInv(s: State)
    requires Inv(s) && Enabled(s, Exit)
    ensures Inv(Step(s, Exit))
  {
    var t := s.cur.value;
    var r := State(s.queues, s.sizes, s.threads, None, s.holders);
    StopLimbo(s);
    LimboThread(r, t, s.threads[t].(status := Exited));
    assert ThreadOk(Step(s, Exit), t, Step(s, Exit).threads[t]);
  }

  lemma DispatchInv(s: State)
    requires Inv(s) && Enabled(s, Dispatch)
    ensures Inv(Step(s, Dispatch))
  {
    RunqFree(s);
    var t := Oldest(s, RUNQ);
    OldestIs(s, RUNQ);
    RemoveLimbo(s, RUNQ, t);
    var q := Remove(s, RUNQ, t);
    var r := Step(s, Dispatch);
    forall p | p in r.queues ensures QueueOk(r, p) { assert QueueOk(q, p); }
    forall m | m in r.holders ensures MutexOk(r, m) { assert MutexOk(q, m); }
    forall u | u in r.threads ensures ThreadOk(r, u, r.threads[u]) { assert u != t ==> ThreadOk(q, u, q.threads[u]); }
  }

  lemma LockInv(s: State, m: Qid, status: Status)
    requires Inv(s) && Enabled(s, Lock(m)) && (status == Sleeping || status == SleepingCancellable)
    ensures s.holders[m].None? ==> Inv(SetHolder(s, m, s.cur))
    ensures s.holders[m].Some? ==> Inv(Sleep(s, m, status))
  {
    assert MutexOk(s, m);
    if s.holders[m].None? { HolderInv(s, m, s.cur); } else { SleepInv(s, m, status); }
  }

  lemma StepInv(s: State, op: Op)
    requires Inv(s) && Enabled(s, op)
    ensures Inv(Step(s, op))
  {
    hide Inv;
    match op
    case Create(t) => CreateInv(s, t);
    case Begin(t) => BeginInv(s, t);
    case SleepOn(q) => SleepInv(s, q, Sleeping);
    case CancellableSleepOn(q) => SleepInv(s, q, SleepingCancellable);
    case WakeupOn(q) =>
      RunqFree(s);
      if s.queues[q] != [] { WakeInv(s, q); }
    case BroadcastOn(q) => DrainInv(s, q);
    case Cancel(t) => CancelInv(s, t);
    case Lock(m) => LockInv(s, m, Sleeping);
    case LockCancellable(m) => LockInv(s, m, SleepingCancellable);
    case Unlock(m) => UnlockInv(s, m);
    case Exit => ExitInv(s);
    case Dispatch => DispatchInv(s);
  }

  function Run(s: State, ops: seq<Op>): State {
    if ops == [] then s
    else
      var r := Run(s, ops[..|ops| - 1]);
      if Enabled(r, ops[|ops| - 1]) then Step(r, ops[|ops| - 1]) else r
  }

  /** Empty queues, free mutexes, one running thread. */
  ghost predicate Initial(s: State) {
    && RUNQ in s.queues && s.queues.Keys == s.sizes.Keys
    && (forall q | q in s.queues :: s.queues[q] == [] && s.sizes[q] == 0)
    && (forall m | m in s.holders :: m in s.queues && m != RUNQ && s.holders[m] == None)
    && s.cur == Some(0) && s.threads == map[0 := Thread(None, Running, false, true)]
  }

  lemma {:induction false} RunInv(s: State, ops: seq<Op>)
    requires Initial(s)
    ensures Inv(Run(s, ops))
  {
    if ops == [] {
      forall q | q in s.queues ensures QueueOk(s, q) { }
    } else {
      RunInv(s, ops[..|ops| - 1]);
      var r := Run(s, ops[..|ops| - 1]);
      if Enabled(r, ops[|ops| - 1]) { StepInv(r, ops[|ops| - 1]); }
    }
  }

  // ----- What it means -----

  /** No thread is lost or duplicated: in every run a started, unexited thread is the running one, or
      stands exactly once in exactly one queue, the one its wchan names; queue sizes are exact. */
  lemma NoThreadLost(s: State, ops: seq<Op>, t: Tid)
    requires Initial(s) && t in Run(s, ops).threads
    requires var x := Run(s, ops).threads[t]; x.started && x.status != Exited
    ensures var r := Run(s, ops);
            var w := r.threads[t].wchan;
            if r.cur == Some(t) then forall q | q in r.queues :: t !in r.queues[q]
            else w.Some? && w.value in r.queues && t in r.queues[w.value] && NoDup(r.queues[w.value])
                 && forall q | q in r.queues && t in r.queues[q] :: q == w.value
    ensures var r := Run(s, ops); forall q | q in r.queues :: q in r.sizes && r.sizes[q] == |r.queues[q]|
  {
    RunInv(s, ops);
    var r := Run(s, ops);
    assert ThreadOk(r, t, r.threads[t]);
    forall q | q in r.queues
      ensures q in r.sizes && r.sizes[q] == |r.queues[q]| && (t in r.queues[q] ==> r.threads[t].wchan == Some(q))
    {
      assert QueueOk(r, q);
    }
    var w := r.threads[t].wchan;
    assert w.Some? ==> QueueOk(r, w.value);
  }

  lemma {:induction false} DrainOthers(s: State, q: Qid, p: Qid)
    requires Inv(s) && PlainQueue(s, q) && RUNQ in s.sizes && p in s.queues && p != q && p != RUNQ
    ensures p in Drain(s, q).queues && Drain(s, q).queues[p] == s.queues[p]
    decreases |s.queues[q]|
  {
    if s.queues[q] != [] {
      RunqFree(s);
      WakeInv(s, q);
      WakeShrinks(s, q);
      DrainOthers(Wake(s, q), q, p);
    }
  }

  /** The holder of a mutex keeps it until it unlocks it itself. */
  lemma HolderStays(s: State, op: Op, m: Qid, t: Tid)
    requires Inv(s) && Enabled(s, op) && m in s.holders && s.holders[m] == Some(t)
    ensures m in Step(s, op).holders
    ensures Step(s, op).holders[m] == Some(t) || (op == Unlock(m) && s.cur == Some(t))
  {
    hide Inv, Drain;
    if op.BroadcastOn? {
      RunqFree(s);
      DrainInv(s, op.q);
    }
  }

  /** Waking a queue takes its oldest thread off it and touches no other wait queue. */
  lemma WakeQueues(s: State, q: Qid, m: Qid, t: Tid)
    requires Inv(s) && q in s.queues && s.queues[q] != [] && m in s.queues && m != RUNQ && t in s.queues[m]
    ensures q in s.sizes && RUNQ in s.sizes && Oldest(s, q) in s.threads && m in Wake(s, q).queues
    ensures t in Wake(s, q).queues[m] || (q == m && t == Oldest(s, q))
  {
    RunqFree(s);
    OldestIs(s, q);
    assert QueueOk(s, m);
    WithoutHas(s.queues[m], Oldest(s, q), t);
  }

  lemma CancelQueues(s: State, u: Tid, m: Qid, t: Tid)
    requires Inv(s) && Enabled(s, Cancel(u)) && m in s.queues && m != RUNQ && t in s.queues[m]
    ensures m in CancelThread(s, u).queues
    ensures t in CancelThread(s, u).queues[m] || (u == t && s.threads[u].status == SleepingCancellable)
  {
    assert ThreadOk(s, u, s.threads[u]) && QueueOk(s, m);
    WithoutHas(s.queues[m], u, t);
  }

  /** A thread leaves the queue of a mutex only as its new owner, being then the one that waited
      longest, or because it was cancelled in a cancellable wait. */
  lemma WaiterLeavesAsOwner(s: State, op: Op, m: Qid, t: Tid)
    requires Inv(s) && Enabled(s, op) && m in s.holders && m in s.queues && t in s.queues[m]
    requires m in Step(s, op).queues ==> t !in Step(s, op).queues[m]
    ensures (op == Unlock(m) && t == Oldest(s, m) && m in Step(s, op).holders && Step(s, op).holders[m] == Some(t)) ||
            (op == Cancel(t) && t in s.threads && s.threads[t].status == SleepingCancellable)
  {
    hide Inv;
    if op.Unlock? {
      UnlockQueues(s, op.m, m, t);
    } else if op.Cancel? {
      assert m != RUNQ by { RunqFree(s); }
      CancelQueues(s, op.t, m, t);
    } else {
      StaysQueued(s, op, m, t);
    }
  }

  lemma UnlockQueues(s: State, n: Qid, m: Qid, t: Tid)
    requires Inv(s) && Enabled(s, Unlock(n)) && m in s.holders && m in s.queues && t in s.queues[m]
    ensures var r := Step(s, Unlock(n));
            m in r.queues && (t in r.queues[m] || (n == m && t == Oldest(s, m) && m in r.holders &&
              r.holders[m] == Some(t)))
  {
    RunqFree(s);
    hide Inv, Wake;
    if s.queues[n] != [] { WakeQueues(s, n, m, t); }
  }

  lemma StaysQueued(s: State, op: Op, m: Qid, t: Tid)
    requires Inv(s) && Enabled(s, op) && m in s.holders && m in s.queues && t in s.queues[m]
    requires !op.Unlock? && !op.Cancel?
    ensures m in Step(s, op).queues && t in Step(s, op).queues[m]
  {
    RunqFree(s);
    hide Inv, Wake, Drain, Oldest;
    match op
    case WakeupOn(q) => if s.queues[q] != [] { WakeQueues(s, q, m, t); }
    case BroadcastOn(q) => DrainOthers(s, q, m);
    case _ =>
  }

  /** The two orders of a cancellation and a hand-over. Cancelled first, a waiter does not get the
      mutex; handed the mutex first, it keeps it although its call will return -EINTR, because nothing
      unlocks a mutex on behalf of a cancelled thread. */
  lemma CancelRace(s: State, m: Qid, t: Tid)
    requires Inv(s) && Enabled(s, Unlock(m)) && s.queues[m] != [] && t == Oldest(s, m)
    requires t in s.threads && s.threads[t].status == SleepingCancellable
    ensures Enabled(s, Cancel(t)) && Enabled(Step(s, Cancel(t)), Unlock(m))
    ensures var a := Step(Step(s, Cancel(t)), Unlock(m));
            m in a.holders && a.holders[m] != Some(t) && t in a.threads && a.threads[t].cancelled
    ensures Enabled(Step(s, Unlock(m)), Cancel(t))
    ensures var b := Step(Step(s, Unlock(m)), Cancel(t));
            m in b.holders && b.holders[m] == Some(t) && t in b.threads && b.threads[t].cancelled
  {
    CancelledFirst(s, m, t);
    HandedFirst(s, m, t);
  }

  lemma HandedFirst(s: State, m: Qid, t: Tid)
    requires Inv(s) && Enabled(s, Unlock(m)) && s.queues[m] != [] && t == Oldest(s, m)
    ensures Enabled(Step(s, Unlock(m)), Cancel(t))
    ensures var b := Step(Step(s, Unlock(m)), Cancel(t));
            m in b.holders && b.holders[m] == Some(t) && t in b.threads && b.threads[t].cancelled
  {
    OldestIs(s, m);
    hide Inv;
  }

  lemma CancelledFirst(s: State, m: Qid, t: Tid)
    requires Inv(s) && Enabled(s, Unlock(m)) && s.queues[m] != [] && t == Oldest(s, m)
    requires t in s.threads && s.threads[t].status == SleepingCancellable
    ensures Enabled(s, Cancel(t)) && Enabled(Step(s, Cancel(t)), Unlock(m))
    ensures var a := Step(Step(s, Cancel(t)), Unlock(m));
            m in a.holders && a.holders[m] != Some(t) && t in a.threads && a.threads[t].cancelled
  {
    OldestIs(s, m);
    RunqFree(s);
    assert QueueOk(s, m) && m != RUNQ by { assert MutexOk(s, m); }
    var c := Step(s, Cancel(t));
    StepInv(s, Cancel(t));
    WithoutHas(s.queues[m], t, t);
    hide Inv;
    assert c.queues[m] == Without(s.queues[m], t) && c.threads[t].cancelled;
    if c.queues[m] != [] {
      OldestIs(c, m);
      assert Oldest(c, m) in c.queues[m];
    }
  }

  // ----- What a cancellable lock comes back with -----

  /** From s on, thread t does not run before the last of these operations is done. */
  ghost predicate Away(s: State, ops: seq<Op>, t: Tid) {
    ops == [] || (Away(s, ops[..|ops| - 1], t) && Run(s, ops[..|ops| - 1]).cur != Some(t))
  }

  /** At some point the mutex was unlocked with t as the one that waited longest. */
  ghost predicate HandedOver(s: State, ops: seq<Op>, m: Qid, t: Tid) {
    ops != [] &&
    var r := Run(s, ops[..|ops| - 1]);
    var op := ops[|ops| - 1];
    || HandedOver(s, ops[..|ops| - 1], m, t)
    || (Enabled(r, op) && op == Unlock(m) && r.queues[m] != [] && t == Oldest(r, m))
  }

  /** Thread t, waiting for m or done with waiting: it holds m if and only if it was handed over, and
      if it neither waits nor holds m it was cancelled. */
  ghost predicate Outcome(r: State, m: Qid, t: Tid, given: bool) {
    && m in r.holders && m in r.queues && t in r.threads
    && (r.holders[m] == Some(t) <==> given)
    && (t in r.queues[m] || given || r.threads[t].cancelled)
  }

  /** While t does not run, nothing puts it on the queue of m or makes it the holder, once it is off. */
  lemma OffStays(s: State, op: Op, m: Qid, t: Tid)
    requires Inv(s) && Enabled(s, op) && m in s.holders && m in s.queues && t !in s.queues[m] && s.cur != Some(t)
    ensures m in Step(s, op).queues && t !in Step(s, op).queues[m] && m in Step(s, op).holders
    ensures Step(s, op).holders[m] == Some(t) <==> s.holders[m] == Some(t)
  {
    RunqFree(s);
    assert MutexOk(s, m) && QueueOk(s, m);
    if op.Unlock? {
      UnlockOff(s, op.m, m, t);
    } else if op.Cancel? {
      WithoutHas(s.queues[m], op.t, t);
    } else if op.BroadcastOn? {
      DrainInv(s, op.q);
      DrainOthers(s, op.q, m);
    } else {
      OffOthers(s, op, m, t);
    }
  }

  lemma OffOthers(s: State, op: Op, m: Qid, t: Tid)
    requires Enabled(s, op) && m in s.holders && m in s.queues && m != RUNQ && t !in s.queues[m] && s.cur != Some(t)
    requires !op.Unlock? && !op.Cancel? && !op.BroadcastOn?
    ensures m in Step(s, op).queues && t !in Step(s, op).queues[m] && m in Step(s, op).holders
    ensures Step(s, op).holders[m] == Some(t) <==> s.holders[m] == Some(t)
  {
  }

  lemma UnlockOff(s: State, n: Qid, m: Qid, t: Tid)
    requires Inv(s) && Enabled(s, Unlock(n)) && m in s.holders && m in s.queues && m != RUNQ &&
             t !in s.queues[m] && s.cur != Some(t)
    ensures var r := Step(s, Unlock(n));
            m in r.queues && t !in r.queues[m] && m in r.holders && (r.holders[m] == Some(t) <==>
              s.holders[m] == Some(t))
  {
    assert QueueOk(s, m);
    hide Inv;
    if s.queues[n] != [] {
      WithoutHas(s.queues[m], Oldest(s, n), t);
      assert Oldest(s, n) in s.queues[n];
    }
  }

  lemma CancelledStays(s: State, op: Op, t: Tid)
    requires Enabled(s, op) && t in s.threads
    ensures t in Step(s, op).threads && (s.threads[t].cancelled ==> Step(s, op).threads[t].cancelled)
  {
    hide Wake, Drain, Oldest, Enqueue, Remove;
    match op
    case Begin(u) => QueueFlags(s, RUNQ, u, t);
    case SleepOn(q) => QueueFlags(s, q, s.cur.value, t);
    case CancellableSleepOn(q) => QueueFlags(s, q, s.cur.value, t);
    case WakeupOn(q) => if s.queues[q] != [] && Oldest(s, q) in s.threads { WakeFlags(s, q, t); }
    case BroadcastOn(q) => DrainFlags(s, q, t);
    case Cancel(u) => CancelFlags(s, u, t);
    case Lock(m) => QueueFlags(s, m, s.cur.value, t);
    case LockCancellable(m) => QueueFlags(s, m, s.cur.value, t);
    case Unlock(m) => if s.queues[m] != [] && Oldest(s, m) in s.threads { WakeFlags(s, m, t); }
    case Dispatch => DispatchFlags(s, t);
    case _ =>
  }

  /** Joining a queue with a new state of one's own changes no flag. */
  lemma QueueFlags(s: State, q: Qid, u: Tid, t: Tid)
    requires t in s.threads && u in s.threads && s.threads[u].wchan == None && q in s.queues && q in s.sizes
    ensures forall x: Thread | x.wchan == None && x.cancelled == s.threads[u].cancelled ::
              && t in Enqueue(SetThread(s, u, x), q, u).threads
              && Enqueue(SetThread(s, u, x), q, u).threads[t].cancelled == s.threads[t].cancelled
  {
  }

  lemma WakeFlags(s: State, q: Qid, t: Tid)
    requires q in s.queues && q in s.sizes && s.queues[q] != [] && RUNQ in s.queues && RUNQ in s.sizes
    requires Oldest(s, q) in s.threads && t in s.threads
    ensures t in Wake(s, q).threads && Wake(s, q).threads[t].cancelled == s.threads[t].cancelled
  {
  }

  lemma CancelFlags(s: State, u: Tid, t: Tid)
    requires u in s.threads && RUNQ in s.queues && RUNQ in s.sizes && t in s.threads
    ensures t in CancelThread(s, u).threads && (s.threads[t].cancelled ==> CancelThread(s, u).threads[t].cancelled)
  {
  }

  lemma DispatchFlags(s: State, t: Tid)
    requires Enabled(s, Dispatch) && t in s.threads
    ensures t in Step(s, Dispatch).threads && Step(s, Dispatch).threads[t].cancelled == s.threads[t].cancelled
  {
  }

  lemma {:induction false} DrainFlags(s: State, q: Qid, t: Tid)
    requires RUNQ in s.queues && RUNQ in s.sizes && q in s.queues && q in s.sizes && t in s.threads
    ensures t in Drain(s, q).threads && Drain(s, q).threads[t].cancelled == s.threads[t].cancelled
    decreases |s.queues[q]|
  {
    if s.queues[q] != [] && Oldest(s, q) in s.threads && |Wake(s, q).queues[q]| < |s.queues[q]| {
      WakeFlags(s, q, t);
      DrainFlags(Wake(s, q), q, t);
    }
  }

  lemma OutcomeStep(s: State, op: Op, m: Qid, t: Tid, given: bool)
    requires Inv(s) && Enabled(s, op) && s.cur != Some(t) && Outcome(s, m, t, given)
    ensures Outcome(Step(s, op), m, t, given || (op == Unlock(m) && s.queues[m] != [] && t == Oldest(s, m)))
  {
    hide Inv, Step, Enabled;
    CancelledStays(s, op, t);
    StepInv(s, op);
    if t in s.queues[m] {
      HolderNotQueued(s, m, t);
      if m in Step(s, op).queues && t in Step(s, op).queues[m] {
        WaiterStays(s, op, m, t);
      } else {
        WaiterLeavesAsOwner(s, op, m, t);
        CancelKeepsHolder(s, op, m, t);
      }
    } else {
      OffStays(s, op, m, t);
      if s.queues[m] != [] { assert Oldest(s, m) in s.queues[m]; }
    }
  }

  lemma HolderNotQueued(s: State, m: Qid, t: Tid)
    requires Inv(s) && m in s.holders && m in s.queues && t in s.queues[m]
    ensures s.holders[m] != Some(t)
  {
    assert MutexOk(s, m);
  }

  /** A waiter that is still waiting was not handed the mutex. */
  lemma WaiterStays(s: State, op: Op, m: Qid, t: Tid)
    requires Inv(s) && Enabled(s, op) && m in s.holders && m in s.queues && t in s.queues[m]
    requires m in Step(s, op).queues && t in Step(s, op).queues[m]
    ensures m in Step(s, op).holders && Step(s, op).holders[m] != Some(t)
    ensures !(op == Unlock(m) && t == Oldest(s, m))
  {
    StepInv(s, op);
    assert m in Step(s, op).holders by { HoldersKept(s, op); }
    HolderNotQueued(Step(s, op), m, t);
  }

  lemma HoldersKept(s: State, op: Op)
    requires Inv(s) && Enabled(s, op)
    ensures Step(s, op).holders.Keys == s.holders.Keys
    ensures op.Cancel? ==>
              Step(s, op).holders == s.holders && op.t in Step(s, op).threads && Step(s, op).threads[op.t].cancelled
  {
    if op.BroadcastOn? { DrainInv(s, op.q); }
  }

  lemma CancelKeepsHolder(s: State, op: Op, m: Qid, t: Tid)
    requires Inv(s) && Enabled(s, op) && m in s.holders && m in s.queues
    ensures m in Step(s, op).holders && m in Step(s, op).queues
    ensures op == Cancel(t) ==>
              Step(s, op).holders[m] == s.holders[m] && t in Step(s, op).threads && Step(s, op).threads[t].cancelled
  {
    hide Inv, Step;
    HoldersKept(s, op);
    MutexQueueMoves(s, op, m);
  }

  lemma {:induction false} OutcomeRun(s: State, ops: seq<Op>, m: Qid, t: Tid)
    requires Inv(s) && m in s.holders && m in s.queues && t in s.queues[m] && Away(s, ops, t)
    ensures Inv(Run(s, ops)) && Outcome(Run(s, ops), m, t, HandedOver(s, ops, m, t))
  {
    hide Inv, Outcome, Step, Enabled;
    if ops == [] {
      OutcomeStart(s, m, t);
    } else {
      var r, op := Run(s, ops[..|ops| - 1]), ops[|ops| - 1];
      OutcomeRun(s, ops[..|ops| - 1], m, t);
      assert m in r.queues by { OutcomeHas(r, m, t, HandedOver(s, ops[..|ops| - 1], m, t)); }
      if Enabled(r, op) {
        StepInv(r, op);
        OutcomeStep(r, op, m, t, HandedOver(s, ops[..|ops| - 1], m, t));
      }
    }
  }

  lemma OutcomeStart(s: State, m: Qid, t: Tid)
    requires Inv(s) && m in s.holders && m in s.queues && t in s.queues[m]
    ensures Outcome(s, m, t, false)
  {
    HolderNotQueued(s, m, t);
    assert QueueOk(s, m);
  }

  lemma OutcomeHas(r: State, m: Qid, t: Tid, given: bool)
    requires Outcome(r, m, t, given)
    ensures m in r.queues
  {
  }

  /** A thread that waits for a mutex, when it runs again: it holds the mutex if and only if it was
      handed over while it was the oldest waiter. kmutex_lock_cancellable then returns 0, which is when
      the thread is not cancelled, only to a holder; it returns -EINTR to a holder exactly if the
      hand-over came before the cancellation. */
  lemma LockReturns(s: State, ops: seq<Op>, m: Qid, t: Tid)
    requires Inv(s) && m in s.holders && m in s.queues && t in s.queues[m] && Away(s, ops, t)
    requires Run(s, ops).cur == Some(t)
    ensures var r := Run(s, ops);
            && m in r.holders && t in r.threads
            && (r.holders[m] == Some(t) <==> HandedOver(s, ops, m, t))
            && (!r.threads[t].cancelled ==> r.holders[m] == Some(t))
  {
    OutcomeRun(s, ops, m, t);
    var r := Run(s, ops);
    assert ThreadOk(r, t, r.threads[t]) && QueueOk(r, m);
  }

  // ----- First come, first served -----

  /** a has been waiting longer than b. */
  ghost predicate Ahead(q: seq<Tid>, a: Tid, b: Tid) {
    exists i, j :: 0 <= i < j < |q| && q[i] == b && q[j] == a
  }

  lemma {:induction false} WithoutAhead(q: seq<Tid>, u: Tid, a: Tid, b: Tid)
    requires NoDup(q) && Ahead(q, a, b) && a != u && b != u
    ensures Ahead(Without(q, u), a, b)
  {
    var i, j :| 0 <= i < j < |q| && q[i] == b && q[j] == a;
    var r := Without(q, u);
    if q[0] == u {
      assert r[i - 1] == b && r[j - 1] == a;
    } else if i == 0 {
      WithoutHas(q[1..], u, a);
      assert q[1..][j - 1] == a;
      var k :| 0 <= k < |r| - 1 && r[1..][k] == a;
      assert r[0] == b && r[k + 1] == a;
    } else {
      assert q[1..][i - 1] == b && q[1..][j - 1] == a;
      WithoutAhead(q[1..], u, a, b);
      var k, l :| 0 <= k < l < |r| - 1 && r[1..][k] == b && r[1..][l] == a;
      assert r[k + 1] == b && r[l + 1] == a;
    }
  }

  lemma PrependAhead(q: seq<Tid>, x: Tid, a: Tid, b: Tid)
    requires Ahead(q, a, b)
    ensures Ahead([x] + q, a, b)
  {
    var i, j :| 0 <= i < j < |q| && q[i] == b && q[j] == a;
    assert ([x] + q)[i + 1] == b && ([x] + q)[j + 1] == a;
  }

  /** r is q without t, everyone else in the same order. */
  ghost predicate Left(q: seq<Tid>, r: seq<Tid>, t: Tid) {
    exists i :: 0 <= i < |q| && q[i] == t && r == q[..i] + q[i + 1..]
  }

  lemma WithoutLeft(q: seq<Tid>, t: Tid)
    requires NoDup(q) && t in q
    ensures Left(q, Without(q, t), t)
  {
    var i :| 0 <= i < |q| && q[i] == t;
    WithoutAt(q, i);
  }

  /** r is s after t was cancelled: its flag is set; a cancellable sleeper moved from its wait queue, which
      the others keep their places in, to the back of the run queue, and if it stood on the run queue
      already, to the back of that; any other thread stays where it is. */
  ghost predicate Cancelled(s: State, r: State, t: Tid)
    requires t in s.threads && RUNQ in s.queues
  {
    && r.cur == s.cur && r.holders == s.holders && t in r.threads && r.threads[t].cancelled
    && r.threads == s.threads[t := r.threads[t]]
    && r.threads[t].status == s.threads[t].status && r.threads[t].started == s.threads[t].started
    && if s.threads[t].status == SleepingCancellable then
         var w := s.threads[t].wchan;
         && r.threads[t].wchan == Some(RUNQ) && w.Some? && w.value in s.queues && w.value in r.queues
         && RUNQ in r.queues && r.queues == s.queues[RUNQ := r.queues[RUNQ]][w.value := r.queues[w.value]]
         && if w.value == RUNQ then
              exists q :: Left(s.queues[RUNQ], q, t) && r.queues[RUNQ] == [t] + q
            else Left(s.queues[w.value], r.queues[w.value], t) && r.queues[RUNQ] == [t] + s.queues[RUNQ]
       else r.queues == s.queues && r.threads[t].wchan == s.threads[t].wchan
  }

  /** What kthread_cancel does to another thread. */
  lemma CancelMoves(s: State, t: Tid)
    requires Inv(s) && Enabled(s, Cancel(t))
    ensures Cancelled(s, Step(s, Cancel(t)), t)
  {
    hide Inv, Left;
    if s.threads[t].status == SleepingCancellable {
      CancelSleeper(s, t);
      SleeperLeft(s, t);
      var q := s.threads[t].wchan.value;
      hide Without;
      assert Step(s, Cancel(t)).queues[RUNQ] == [t] + if q == RUNQ then Without(s.queues[q], t) else s.queues[RUNQ];
    }
  }

  lemma SleeperLeft(s: State, t: Tid)
    requires Inv(s) && t in s.threads && s.threads[t].wchan.Some? && s.threads[t].wchan.value in s.queues
    ensures var q := s.queues[s.threads[t].wchan.value]; Left(q, Without(q, t), t)
  {
    assert QueueOk(s, s.threads[t].wchan.value);
    WithoutLeft(s.queues[s.threads[t].wchan.value], t);
  }

  /** How one step changes the wait queue of a mutex: not, by a thread that joins at the back, or by
      one that leaves. */
  ghost predicate QueueMoves(q: seq<Tid>, r: seq<Tid>) {
    r == q || (exists x :: r == [x] + q) || exists u :: r == Without(q, u)
  }

  lemma MutexQueueMoves(s: State, op: Op, m: Qid)
    requires Inv(s) && Enabled(s, op) && m in s.holders && m in s.queues
    ensures m in Step(s, op).queues && QueueMoves(s.queues[m], Step(s, op).queues[m])
  {
    RunqFree(s);
    assert m != RUNQ && MutexOk(s, m);
    hide Inv, Drain, MutexOk;
    var q := s.queues[m];
    match op
    case WakeupOn(p) => assert Step(s, op).queues[m] == q;
    case BroadcastOn(p) => DrainOthers(s, p, m);
    case Unlock(n) =>
      if s.queues[n] != [] && n == m { assert Step(s, op).queues[m] in {q, Without(q, Oldest(s, m))}; }
    case Cancel(u) => assert Step(s, op).queues[m] in {q, Without(q, u)};
    case Lock(n) => if n == m && s.holders[m].Some? { assert Step(s, op).queues[m] == [s.cur.value] + q; }
    case LockCancellable(n) =>
      if n == m && s.holders[m].Some? { assert Step(s, op).queues[m] in {q, [s.cur.value] + q}; }
    case _ => QueueStays(s, op, m);
  }

  /** The steps that leave the wait queue of a mutex alone. */
  lemma QueueStays(s: State, op: Op, m: Qid)
    requires Enabled(s, op) && m in s.queues && m != RUNQ && m in s.holders && MutexOk(s, m)
    requires !op.WakeupOn? && !op.BroadcastOn? && !op.Unlock? && !op.Cancel? && !op.Lock? && !op.LockCancellable?
    ensures m in Step(s, op).queues && Step(s, op).queues[m] == s.queues[m]
  {
  }

  /** Waiters of a mutex never overtake each other, so the one that gets it waited longest. */
  lemma NoOvertaking(s: State, op: Op, m: Qid, a: Tid, b: Tid)
    requires Inv(s) && Enabled(s, op) && m in s.holders && m in s.queues && Ahead(s.queues[m], a, b)
    requires m in Step(s, op).queues ==> a in Step(s, op).queues[m] && b in Step(s, op).queues[m]
    ensures m in Step(s, op).queues && Ahead(Step(s, op).queues[m], a, b)
    ensures Oldest(s, m) != b
  {
    var q := s.queues[m];
    assert QueueOk(s, m);
    MutexQueueMoves(s, op, m);
    var i, j :| 0 <= i < j < |q| && q[i] == b && q[j] == a;
    hide Step, Inv;
    var r := Step(s, op).queues[m];
    if r != q {
      if x :| r == [x] + q {
        PrependAhead(q, x, a, b);
      } else {
        var u :| r == Without(q, u);
        WithoutHas(q, u, a);
        WithoutHas(q, u, b);
        WithoutAhead(q, u, a, b);
      }
    }
  }
}

/** The same operations as they run, on queues and threads changed in place. */
module SchedMachine {
  import opened Wrappers
  import opened Lists
  import opened Sched
  import opened Queueing

  class Scheduler {
    var queues: map<Qid, seq<Tid>>
    var sizes: map<Qid, int>
    var threads: map<Tid, Thread>
    var cur: Option<Tid>
    var holders: map<Qid, Option<Tid>>

    ghost function St(): State
      reads this
    {
      State(queues, sizes, threads, cur, holders)
    }

    method PushThread(q: Qid, t: Tid)
      requires CanEnqueue(St(), q, t)
      modifies this`queues, this`sizes, this`threads
      ensures St() == Enqueue(old(St()), q, t)
    {
      queues := queues[q := [t] + queues[q]];
      threads := threads[t := threads[t].(wchan := Some(q))];
      sizes := sizes[q := sizes[q] + 1];
    }

    /** ktqueue_dequeue: the thread at the far end. */
    method PopThread(q: Qid) returns (t: Tid)
      requires Inv(St()) && q in queues && queues[q] != []
      modifies this`queues, this`sizes, this`threads
      ensures t == Oldest(old(St()), q) && t in old(threads) && q in old(sizes) && St() == Remove(old(St()), q, t)
    {
      OldestIs(St(), q);
      assert QueueOk(St(), q);
      var n := |queues[q]| - 1;
      t := queues[q][n];
      WithoutLast(queues[q]);
      queues := queues[q := queues[q][..n]];
      threads := threads[t := threads[t].(wchan := None)];
      sizes := sizes[q := sizes[q] - 1];
    }

    method Wakeup(q: Qid) returns (t: Option<Tid>)
      requires Inv(St()) && q in queues
      modifies this`queues, this`sizes, this`threads
      ensures old(queues)[q] == [] ==> t == None && St() == old(St())
      ensures old(queues)[q] != [] ==>
                && q in old(sizes) && RUNQ in old(sizes) && Oldest(old(St()), q) in old(threads)
                && t == Some(Oldest(old(St()), q)) && St() == Wake(old(St()), q) && Inv(St())
      ensures q != RUNQ && old(queues)[q] != [] ==> OneMoved(old(St()), St(), q)
    {
      t := None;
      if queues[q] != [] {
        RunqFree(St());
        WakeInv(St(), q);
        if q != RUNQ { WakeMoves(St(), q); }
        hide Inv, OneMoved;
        var u := PopThread(q);
        threads := threads[u := threads[u].(status := Running)];
        PushThread(RUNQ, u);
        t := Some(u);
      }
    }

    /** sched_broadcast_on */
    method Broadcast(q: Qid)
      requires Inv(St()) && PlainQueue(St(), q) && RUNQ in sizes
      modifies this`queues, this`sizes, this`threads
      ensures St() == Drain(old(St()), q) && q in queues && queues[q] == [] && AllMoved(old(St()), St(), q)
    {
      DrainInv(St(), q);
      BroadcastMoves(St(), q);
      hide AllMoved, OneMoved;
      while queues[q] != []
        invariant Inv(St()) && PlainQueue(St(), q) && RUNQ in sizes && holders == old(holders) && cur == old(cur)
        invariant Drain(old(St()), q) == Drain(St(), q)
        decreases |queues[q]|
      {
        ghost var s := St();
        RunqFree(s);
        WakeInv(s, q);
        WakeShrinks(s, q);
        var t := Wakeup(q);
      }
    }

    method SleepHere(q: Qid, status: Status)
      requires Inv(St()) && cur.Some? && Runs(St(), cur.value) && q in queues && q in sizes
      modifies this`queues, this`sizes, this`threads, this`cur
      ensures St() == Sleep(old(St()), q, status)
      ensures var t := old(cur).value;
              && cur == None && queues == old(queues)[q := [t] + old(queues)[q]]
              && threads ==
                 old(threads)[t := Thread(Some(q), status, old(threads)[t].cancelled, old(threads)[t].started)]
    {
      var t := cur.value;
      threads := threads[t := threads[t].(status := status)];
      PushThread(q, t);
      cur := None;
    }

    method MutexLock(m: Qid)
      requires Inv(St()) && Enabled(St(), Lock(m))
      modifies this`queues, this`sizes, this`threads, this`cur, this`holders
      ensures St() == Step(old(St()), Lock(m))
      ensures old(holders)[m] == None ==>
                holders == old(holders)[m := cur] && cur == old(cur) && queues == old(queues) && threads == old(threads)
      ensures old(holders)[m] != None ==>
                var t := old(cur).value;
                && holders == old(holders) && cur == None && queues == old(queues)[m := [t] + old(queues)[m]]
                && t in threads && threads[t].status == Sleeping
    {
      if holders[m] == None {
        holders := holders[m := cur];
      } else {
        SleepHere(m, Sleeping);
      }
    }

    /** ktqueue_remove, for a thread that is on the queue. */
    method RemoveThread(q: Qid, t: Tid)
      requires q in queues && q in sizes && t in threads
      modifies this`queues, this`sizes, this`threads
      ensures St() == Remove(old(St()), q, t)
    {
      var i := 0;
      while i < |queues[q]| && queues[q][i] != t
        invariant 0 <= i <= |queues[q]| && t !in queues[q][..i]
      {
        i := i + 1;
      }
      if i < |queues[q]| {
        WithoutAt(queues[q], i);
        queues := queues[q := queues[q][..i] + queues[q][i + 1..]];
      } else {
        WithoutNone(queues[q], t);
      }
      threads := threads[t := threads[t].(wchan := None)];
      sizes := sizes[q := sizes[q] - 1];
    }

    /** kthread_cancel of another thread, with sched_cancel. */
    method CancelOther(t: Tid)
      requires Inv(St()) && Enabled(St(), Cancel(t))
      modifies this`queues, this`sizes, this`threads
      ensures Inv(St()) && St() == Step(old(St()), Cancel(t))
      ensures t in threads && threads[t].cancelled && threads == old(threads)[t := threads[t]]
      ensures old(threads)[t].status != SleepingCancellable ==>
                queues == old(queues) && threads[t] == old(threads)[t].(cancelled := true)
      ensures old(threads)[t].status == SleepingCancellable ==>
                var w := old(threads)[t].wchan;
                && threads[t].wchan == Some(RUNQ) && w.Some? && w.value in old(queues)
                && (w != Some(RUNQ) ==>
                      && queues[RUNQ] == [t] + old(queues)[RUNQ] && Left(old(queues)[w.value], queues[w.value], t)
                      && queues == old(queues)[RUNQ := queues[RUNQ]][w.value := queues[w.value]])
    {
      CancelMoves(St(), t);
      StepInv(St(), Cancel(t));
      if threads[t].status == SleepingCancellable {
        CancelSleeper(St(), t);
        hide Inv;
        threads := threads[t := threads[t].(cancelled := true)];
        RemoveThread(threads[t].wchan.value, t);
        PushThread(RUNQ, t);
      } else {
        threads := threads[t := threads[t].(cancelled := true)];
      }
    }

    /** kmutex_lock_cancellable up to the point where it returns or sleeps; ok is false for -EINTR. */
    method MutexLockCancellable(m: Qid) returns (ok: bool)
      requires Inv(St()) && Enabled(St(), LockCancellable(m))
      modifies this`queues, this`sizes, this`threads, this`cur, this`holders
      ensures Inv(St()) && St() == Step(old(St()), LockCancellable(m))
      ensures ok <==> old(holders)[m] == None || !old(threads)[old(cur).value].cancelled
      ensures old(holders)[m] == None ==> holders == old(holders)[m := cur]
      ensures !ok || old(holders)[m] == None ==> cur == old(cur) && queues == old(queues) && threads == old(threads)
      ensures old(holders)[m] != None ==> holders == old(holders)
      ensures ok && old(holders)[m] != None ==>
                var t := old(cur).value;
                && cur == None && queues == old(queues)[m := [t] + old(queues)[m]]
                && t in threads && threads[t].status == SleepingCancellable
    {
      StepInv(St(), LockCancellable(m));
      if holders[m] == None {
        holders := holders[m := cur];
        return true;
      }
      if threads[cur.value].cancelled {
        return false;
      }
      SleepHere(m, SleepingCancellable);
      ok := true;
    }

    /** The end of sched_switch, when the run queue is not empty. */
    method Switch()
      requires Inv(St()) && Enabled(St(), Dispatch)
      modifies this`queues, this`sizes, this`threads, this`cur
      ensures Inv(St()) && St() == Step(old(St()), Dispatch)
      ensures var n := |old(queues)[RUNQ]| - 1;
              && cur == Some(old(queues)[RUNQ][n]) && queues == old(queues)[RUNQ := old(queues)[RUNQ][..n]]
    {
      DispatchMoves(St());
      StepInv(St(), Dispatch);
      var t := PopThread(RUNQ);
      cur := Some(t);
    }

    method MutexUnlock(m: Qid)
      requires Inv(St()) && Enabled(St(), Unlock(m))
      modifies this`queues, this`sizes, this`threads, this`holders
      ensures St() == Step(old(St()), Unlock(m))
      ensures old(queues)[m] == [] ==>
                holders == old(holders)[m := None] && queues == old(queues) && threads == old(threads)
      ensures old(queues)[m] != [] ==>
                var n := |old(queues)[m]| - 1;
                var t := old(queues)[m][n];
                && RUNQ in old(queues) && t in threads && threads[t].status == Running
                && holders == old(holders)[m := Some(t)]
                && queues == old(queues)[m := old(queues)[m][..n]][RUNQ := [t] + old(queues)[RUNQ]]
    {
      assert MutexOk(St(), m);
      ghost var s := St();
      if queues[m] == [] {
        holders := holders[m := None];
      } else {
        var t := Wakeup(m);
        holders := holders[m := t];
      }
    }
  }
}
