/** The order of the queues: what each step does to them, and that the run queue is first come, first
    served (kernel/proc/sched.c, sched_helper.c). */
module Queueing {
  import opened Wrappers
  import opened Lists
  import opened Sched

  /** Every queue but the named ones is as it was. */
  predicate OnlyQueues(s: State, r: State, q: Qid, p: Qid) {
    q in r.queues && p in r.queues && r.queues == s.queues[q := r.queues[q]][p := r.queues[p]]
  }

  /** r is s with the thread that has waited longest on q moved from the front of q to the back of the run
      queue, and made running. */
  predicate OneMoved(s: State, r: State, q: Qid)
    requires q in s.queues && s.queues[q] != [] && RUNQ in s.queues
  {
    var n := |s.queues[q]| - 1;
    var t := s.queues[q][n];
    && r.cur == s.cur && r.holders == s.holders && t in s.threads && OnlyQueues(s, r, q, RUNQ)
    && r.queues[q] == s.queues[q][..n] && r.queues[RUNQ] == [t] + s.queues[RUNQ]
    && r.threads == s.threads[t := Thread(Some(RUNQ), Running, s.threads[t].cancelled, s.threads[t].started)]
  }

  lemma WakeMoves(s: State, q: Qid)
    requires Inv(s) && q in s.queues && s.queues[q] != [] && q != RUNQ
    ensures q in s.sizes && RUNQ in s.sizes && Oldest(s, q) in s.threads && OneMoved(s, Wake(s, q), q)
  {
    RunqFree(s);
    OldestIs(s, q);
    assert QueueOk(s, q);
    hide Inv, QueueOk, ThreadOk;
    WithoutLast(s.queues[q]);
  }

  /** r is s with all of q moved, in its order, behind the threads of the run queue, and made running. */
  ghost predicate AllMoved(s: State, r: State, q: Qid)
    requires q in s.queues && RUNQ in s.queues
  {
    && r.cur == s.cur && r.holders == s.holders && OnlyQueues(s, r, q, RUNQ) && r.threads.Keys == s.threads.Keys
    && r.queues[q] == [] && r.queues[RUNQ] == s.queues[q] + s.queues[RUNQ]
    && forall u | u in s.threads ::
         r.threads[u] == if u in s.queues[q]
                         then Thread(Some(RUNQ), Running, s.threads[u].cancelled, s.threads[u].started)
                         else s.threads[u]
  }

  lemma MovedThenAll(s: State, j: State, r: State, q: Qid)
    requires q in s.queues && s.queues[q] != [] && RUNQ in s.queues && q != RUNQ
    requires OneMoved(s, j, q) && AllMoved(j, r, q)
    ensures AllMoved(s, r, q)
  {
    var n := |s.queues[q]| - 1;
    var t := s.queues[q][n];
    assert s.queues[q] == s.queues[q][..n] + [t];
    assert s.queues[q] + s.queues[RUNQ] == s.queues[q][..n] + ([t] + s.queues[RUNQ]);
    assert r.queues == s.queues[q := []][RUNQ := r.queues[RUNQ]];
  }

  lemma {:induction false} BroadcastMoves(s: State, q: Qid)
    requires Inv(s) && PlainQueue(s, q) && RUNQ in s.sizes
    ensures AllMoved(s, Drain(s, q), q)
    decreases |s.queues[q]|
  {
    if s.queues[q] != [] {
      hide Inv, Wake, AllMoved;
      WakeMoves(s, q);
      RunqFree(s);
      WakeInv(s, q);
      WakeShrinks(s, q);
      BroadcastMoves(Wake(s, q), q);
      MovedThenAll(s, Wake(s, q), Drain(Wake(s, q), q), q);
    }
  }

  /** The thread that has been runnable longest runs next. */
  lemma DispatchMoves(s: State)
    requires Inv(s) && Enabled(s, Dispatch)
    ensures var r := Step(s, Dispatch);
            var n := |s.queues[RUNQ]| - 1;
            var t := s.queues[RUNQ][n];
            && r.cur == Some(t) && r.holders == s.holders && t in s.threads
            && r.queues == s.queues[RUNQ := s.queues[RUNQ][..n]]
            && r.threads == s.threads[t := s.threads[t].(wchan := None)]
  {
    RunqFree(s);
    OldestIs(s, RUNQ);
    assert QueueOk(s, RUNQ);
    hide Inv, QueueOk, ThreadOk;
    WithoutLast(s.queues[RUNQ]);
  }

  // ----- Every step, by what it does to queues, threads and holders -----

  /** r is s after its running thread went to sleep, or to be run later, at the back of q. */
  predicate Slept(s: State, r: State, q: Qid, status: Status)
    requires s.cur.Some? && s.cur.value in s.threads && q in s.queues
  {
    var t := s.cur.value;
    && r.cur == None && r.holders == s.holders && r.queues == s.queues[q := [t] + s.queues[q]]
    && r.threads == s.threads[t := Thread(Some(q), status, s.threads[t].cancelled, s.threads[t].started)]
  }

  /** Nothing but holders differs. */
  predicate Still(s: State, r: State) {
    r.queues == s.queues && r.cur == s.cur && r.threads == s.threads
  }

  ghost predicate Moves(s: State, op: Op, r: State)
    requires Enabled(s, op)
  {
    match op
    case Create(t) =>
      && r.queues == s.queues && r.cur == s.cur && r.holders == s.holders
      && r.threads == s.threads[t := Thread(None, NoState, false, false)]
    case Begin(t) =>
      && r.queues == s.queues[RUNQ := [t] + s.queues[RUNQ]] && r.cur == s.cur && r.holders == s.holders
      && r.threads == s.threads[t := Thread(Some(RUNQ), s.threads[t].status, s.threads[t].cancelled, true)]
    case SleepOn(q) => Slept(s, r, q, Sleeping)
    case CancellableSleepOn(q) =>
      if s.threads[s.cur.value].cancelled then r == s else Slept(s, r, q, SleepingCancellable)
    case WakeupOn(q) => if s.queues[q] == [] then r == s else OneMoved(s, r, q)
    case BroadcastOn(q) => AllMoved(s, r, q)
    case Cancel(t) => Cancelled(s, r, t)
    case Lock(m) =>
      if s.holders[m] == None then Still(s, r) && r.holders == s.holders[m := s.cur] else Slept(s, r, m, Sleeping)
    case LockCancellable(m) =>
      if s.holders[m] == None then Still(s, r) && r.holders == s.holders[m := s.cur]
      else if s.threads[s.cur.value].cancelled then r == s
      else Slept(s, r, m, SleepingCancellable)
    case Unlock(m) =>
      if s.queues[m] == [] then Still(s, r) && r.holders == s.holders[m := None]
      else OneMoved(s, r.(holders := s.holders), m) && r.holders == s.holders[m := Some(Oldest(s, m))]
    case Exit =>
      && r.queues == s.queues && r.cur == None && r.holders == s.holders
      && r.threads == s.threads[s.cur.value := s.threads[s.cur.value].(status := Exited)]
    case Dispatch =>
      var n := |s.queues[RUNQ]| - 1;
      var t := s.queues[RUNQ][n];
      && r.cur == Some(t) && r.holders == s.holders && t in s.threads
      && r.queues == s.queues[RUNQ := s.queues[RUNQ][..n]] && r.threads == s.threads[t := s.threads[t].(wchan := None)]
  }

  /** What each call of the scheduler and of mutexes does. */
  lemma StepMoves(s: State, op: Op)
    requires Inv(s) && Enabled(s, op)
    ensures Moves(s, op, Step(s, op))
  {
    RunqFree(s);
    assert op.Unlock? ==> MutexOk(s, op.m);
    hide Inv, OneMoved, AllMoved;
    match op
    case Dispatch => DispatchMoves(s);
    case Cancel(t) => CancelMoves(s, t);
    case BroadcastOn(p) => BroadcastMoves(s, p);
    case WakeupOn(p) => if s.queues[p] != [] { WakeMoves(s, p); }
    case Unlock(m) => UnlockMoves(s, m);
    case _ => PlainMoves(s, op);
  }

  lemma UnlockMoves(s: State, m: Qid)
    requires Inv(s) && Enabled(s, Unlock(m))
    ensures Moves(s, Unlock(m), Step(s, Unlock(m)))
  {
    assert MutexOk(s, m);
    hide Inv;
    if s.queues[m] != [] {
      WakeMoves(s, m);
      assert Step(s, Unlock(m)).(holders := s.holders) == Wake(s, m);
    }
  }

  lemma PlainMoves(s: State, op: Op)
    requires Enabled(s, op)
    requires !op.Dispatch? && !op.Cancel? && !op.BroadcastOn? && !op.WakeupOn? && !op.Unlock?
    ensures Moves(s, op, Step(s, op))
  {
  }

  /** A thread in an uninterruptible sleep leaves its wait queue only by a wakeup of that queue, however
      often it is cancelled. */
  lemma UncancellableStep(s: State, op: Op, q: Qid, t: Tid)
    requires Inv(s) && Enabled(s, op) && PlainQueue(s, q) && t in s.queues[q] && s.threads[t].status == Sleeping
    requires op != WakeupOn(q) && op != BroadcastOn(q)
    ensures PlainQueue(Step(s, op), q) && t in Step(s, op).queues[q]
    ensures t in Step(s, op).threads && Step(s, op).threads[t].status == Sleeping
  {
    assert QueueOk(s, q) && ThreadOk(s, t, s.threads[t]);
    StepMoves(s, op);
    StepInv(s, op);
    var r := Step(s, op);
    MovesElsewhere(s, op, r, q, t);
    assert QueueOk(r, q);
  }

  lemma MovesElsewhere(s: State, op: Op, r: State, q: Qid, t: Tid)
    requires Inv(s) && Enabled(s, op) && Moves(s, op, r) && PlainQueue(s, q) && t in s.queues[q]
    requires op != WakeupOn(q) && op != BroadcastOn(q) && s.threads[t].status == Sleeping
    ensures q in r.queues && t in r.queues[q] && q !in r.holders && t in r.threads && r.threads[t].status == Sleeping
  {
    hide Inv, Left, OneMoved, AllMoved;
    QueuedKnown(s, q);
    NotCurrent(s, q, t);
    match op
    case Cancel(u) =>
      if s.threads[u].wchan == Some(q) && s.threads[u].status == SleepingCancellable {
        LeftHas(s.queues[q], r.queues[q], u, t);
      }
    case BroadcastOn(p) => AllElsewhere(s, r, p, q, t);
    case WakeupOn(p) => if s.queues[p] != [] { OneElsewhere(s, r, p, q, t); }
    case Unlock(m) => if s.queues[m] != [] { OneElsewhere(s, r.(holders := s.holders), m, q, t); }
    case _ =>
  }

  lemma NotCurrent(s: State, q: Qid, t: Tid)
    requires Inv(s) && q in s.queues && t in s.queues[q]
    ensures s.cur != Some(t) && (RUNQ in s.queues && t in s.queues[RUNQ] ==> q == RUNQ)
    ensures t in s.threads && s.threads[t].started
  {
    assert QueueOk(s, q) && QueueOk(s, RUNQ);
    assert ThreadOk(s, t, s.threads[t]);
  }

  lemma OneElsewhere(s: State, r: State, p: Qid, q: Qid, t: Tid)
    requires Inv(s) && p in s.queues && s.queues[p] != [] && OneMoved(s, r, p)
    requires q in s.queues && t in s.queues[q] && q != p && q != RUNQ
    ensures q in r.queues && r.queues[q] == s.queues[q] && r.holders == s.holders
    ensures t in r.threads && t in s.threads && r.threads[t] == s.threads[t]
  {
    QueuedKnown(s, q);
    QueuedKnown(s, p);
  }

  lemma AllElsewhere(s: State, r: State, p: Qid, q: Qid, t: Tid)
    requires Inv(s) && p in s.queues && AllMoved(s, r, p)
    requires q in s.queues && t in s.queues[q] && q != p && q != RUNQ
    ensures q in r.queues && r.queues[q] == s.queues[q] && r.holders == s.holders
    ensures t in r.threads && t in s.threads && r.threads[t] == s.threads[t]
  {
    QueuedKnown(s, q);
    QueuedKnown(s, p);
  }

  lemma LeftHas(q: seq<Tid>, r: seq<Tid>, u: Tid, t: Tid)
    requires Left(q, r, u) && t in q && t != u
    ensures t in r
  {
    var i :| 0 <= i < |q| && q[i] == u && r == q[..i] + q[i + 1..];
    var j :| 0 <= j < |q| && q[j] == t;
    assert j < i ==> r[j] == t;
    assert j > i ==> r[j - 1] == t;
  }

  // ----- The run queue -----

  /** How a step changes the run queue: the oldest thread goes and runs, one that is cancelled again moves
      to the back, or threads join at the back. */
  lemma RunqMoves(s: State, op: Op)
    requires Inv(s) && Enabled(s, op)
    ensures var q := s.queues[RUNQ];
            var r := Step(s, op);
            && RUNQ in r.queues
            && if op == Dispatch then r.queues[RUNQ] == q[..|q| - 1] && r.cur == Some(q[|q| - 1])
               else if op.Cancel? && s.threads[op.t].status == SleepingCancellable &&
                       s.threads[op.t].wchan == Some(RUNQ)
               then exists p :: Left(q, p, op.t) && r.queues[RUNQ] == [op.t] + p
               else exists xs :: r.queues[RUNQ] == xs + q
  {
    var q := s.queues[RUNQ];
    assert q == [] + q;
    match op
    case Dispatch => DispatchMoves(s);
    case Cancel(t) => CancelMoves(s, t);
    case BroadcastOn(p) => BroadcastMoves(s, p);
    case WakeupOn(p) => if s.queues[p] != [] { WakeMoves(s, p); }
    case Unlock(m) =>
      assert MutexOk(s, m);
      if s.queues[m] != [] { WakeMoves(s, m); }
    case _ => JoinRunq(s, op);
  }

  lemma JoinRunq(s: State, op: Op)
    requires Inv(s) && Enabled(s, op)
    requires !op.Dispatch? && !op.Cancel? && !op.BroadcastOn? && !op.WakeupOn? && !op.Unlock?
    ensures RUNQ in Step(s, op).queues && exists xs :: Step(s, op).queues[RUNQ] == xs + s.queues[RUNQ]
  {
    RunqFree(s);
    hide Inv;
    assert s.queues[RUNQ] == [] + s.queues[RUNQ];
  }

  /** The one step that takes a thread from its place on the run queue: a second cancel, while it still
      counts as a cancellable sleeper. */
  predicate Requeues(s: State, op: Op, a: Tid) {
    op == Cancel(a) && a in s.threads && s.threads[a].status == SleepingCancellable
  }

  /** During a run the step can occur only if the thread was woken by a cancel and is cancelled again. */
  predicate KeepsPlace(s: State, ops: seq<Op>, a: Tid) {
    Cancel(a) in ops ==> a in s.threads && s.threads[a].status != SleepingCancellable
  }

  /** Waiting for its turn does not change a thread's state. */
  lemma StatusStays(s: State, op: Op, a: Tid)
    requires Inv(s) && Enabled(s, op) && a in s.queues[RUNQ]
    ensures a in s.threads && a in Step(s, op).threads && Step(s, op).threads[a].status == s.threads[a].status
  {
    assert QueueOk(s, RUNQ) && ThreadOk(s, a, s.threads[a]);
    match op
    case Dispatch => DispatchMoves(s);
    case Cancel(t) => CancelMoves(s, t);
    case BroadcastOn(p) =>
      assert QueueOk(s, p);
      BroadcastMoves(s, p);
    case WakeupOn(p) => if s.queues[p] != [] { OneStays(s, p, a); }
    case Unlock(m) =>
      assert MutexOk(s, m);
      if s.queues[m] != [] { OneStays(s, m, a); }
    case _ =>
  }

  lemma OneStays(s: State, q: Qid, a: Tid)
    requires Inv(s) && q in s.queues && s.queues[q] != [] && q != RUNQ && a in s.queues[RUNQ]
    ensures q in s.sizes && RUNQ in s.sizes && Oldest(s, q) in s.threads && a in s.threads
    ensures a in Wake(s, q).threads && Wake(s, q).threads[a] == s.threads[a]
  {
    WakeMoves(s, q);
    assert QueueOk(s, q) && QueueOk(s, RUNQ) && s.queues[q][|s.queues[q]| - 1] in s.queues[q];
  }

  // ----- Every runnable thread gets its turn -----

  /** a stands on q with at most n threads before it. */
  ghost predicate InLine(q: seq<Tid>, a: Tid, n: nat) {
    exists i :: 0 <= i < |q| && q[i] == a && |q| - 1 - i <= n
  }

  lemma CancelledInLine(q: seq<Tid>, p: seq<Tid>, u: Tid, a: Tid, n: nat)
    requires InLine(q, a, n) && Left(q, p, u) && u != a
    ensures InLine([u] + p, a, n)
  {
    var i :| 0 <= i < |q| && q[i] == a && |q| - 1 - i <= n;
    var j :| 0 <= j < |q| && q[j] == u && p == q[..j] + q[j + 1..];
    assert j < i ==> ([u] + p)[i] == a;
    assert i < j ==> ([u] + p)[i + 1] == a;
  }

  lemma JoinedInLine(q: seq<Tid>, xs: seq<Tid>, a: Tid, n: nat)
    requires InLine(q, a, n)
    ensures InLine(xs + q, a, n)
  {
    var i :| 0 <= i < |q| && q[i] == a && |q| - 1 - i <= n;
    assert (xs + q)[|xs| + i] == a;
  }

  lemma PoppedInLine(q: seq<Tid>, a: Tid, n: nat)
    requires InLine(q, a, n)
    ensures q != [] && (q[|q| - 1] != a ==> n > 0 && InLine(q[..|q| - 1], a, n - 1))
  {
    var i :| 0 <= i < |q| && q[i] == a && |q| - 1 - i <= n;
    assert i < |q| - 1 ==> q[..|q| - 1][i] == a;
  }

  /** Nobody gets in before a thread of the run queue: it moves up each time another thread is dispatched,
      and leaves only to run. */
  lemma TurnStep(s: State, op: Op, a: Tid, n: nat)
    requires Inv(s) && Enabled(s, op) && !Requeues(s, op, a) && InLine(s.queues[RUNQ], a, n)
    ensures RUNQ in Step(s, op).queues
    ensures op != Dispatch ==> InLine(Step(s, op).queues[RUNQ], a, n)
    ensures op == Dispatch && Step(s, op).cur != Some(a) ==> n > 0 && InLine(Step(s, op).queues[RUNQ], a, n - 1)
  {
    hide Inv, Step, Left, InLine;
    RunqMoves(s, op);
    var q, r := s.queues[RUNQ], Step(s, op).queues[RUNQ];
    PoppedInLine(q, a, n);
    if op.Cancel? && s.threads[op.t].status == SleepingCancellable && s.threads[op.t].wchan == Some(RUNQ) {
      var p :| Left(q, p, op.t) && r == [op.t] + p;
      CancelledInLine(q, p, op.t, a, n);
    } else if op != Dispatch {
      var xs :| r == xs + q;
      JoinedInLine(q, xs, a, n);
    }
  }

  /** Thread a is not the running one at any point of a run. */
  predicate NotYet(s: State, ops: seq<Op>, a: Tid) {
    Run(s, ops).cur != Some(a) && (ops != [] ==> NotYet(s, ops[..|ops| - 1], a))
  }

  lemma {:induction false} SomeTurn(s: State, ops: seq<Op>, a: Tid)
    requires !NotYet(s, ops, a)
    ensures exists k: nat :: k <= |ops| && Run(s, ops[..k]).cur == Some(a)
  {
    assert ops[..|ops|] == ops;
    if Run(s, ops).cur != Some(a) {
      var m := |ops| - 1;
      SomeTurn(s, ops[..m], a);
      var k: nat :| k <= m && Run(s, ops[..m][..k]).cur == Some(a);
      assert ops[..m][..k] == ops[..k];
    }
  }

  /** How often sched_switch hands out a thread during a run. */
  function Dispatches(s: State, ops: seq<Op>): nat {
    if ops == [] then 0
    else
      var n := |ops| - 1;
      Dispatches(s, ops[..n]) + if ops[n] == Dispatch && Enabled(Run(s, ops[..n]), Dispatch) then 1 else 0
  }

  lemma QueuedKnown(s: State, q: Qid)
    requires Inv(s) && q in s.queues
    ensures forall t | t in s.queues[q] :: t in s.threads && s.threads[t].wchan == Some(q)
  {
    assert QueueOk(s, q);
  }

  predicate SameStatus(s: State, r: State, a: Tid) {
    a in s.threads && a in r.threads && r.threads[a].status == s.threads[a].status
  }

  lemma NotRequeued(s: State, ops: seq<Op>, r: State, a: Tid, m: nat)
    requires KeepsPlace(s, ops, a) && SameStatus(s, r, a) && m < |ops|
    ensures !Requeues(r, ops[m], a)
  {
  }

  lemma InLineKnown(s: State, a: Tid, n: nat)
    requires Inv(s) && InLine(s.queues[RUNQ], a, n)
    ensures a in s.queues[RUNQ] && a in s.threads
  {
    assert QueueOk(s, RUNQ);
  }

  lemma {:induction false} TurnRun(s: State, ops: seq<Op>, a: Tid, n: nat)
    requires Inv(s) && RUNQ in s.queues && InLine(s.queues[RUNQ], a, n) && KeepsPlace(s, ops, a)
    requires NotYet(s, ops, a)
    ensures Inv(Run(s, ops)) && RUNQ in Run(s, ops).queues && Dispatches(s, ops) <= n
    ensures SameStatus(s, Run(s, ops), a)
    ensures InLine(Run(s, ops).queues[RUNQ], a, n - Dispatches(s, ops))
  {
    hide Inv, InLine, Step, Enabled, Requeues;
    if ops == [] {
      InLineKnown(s, a, n);
    } else {
      var m := |ops| - 1;
      var r, op := Run(s, ops[..m]), ops[m];
      assert Run(s, ops) == if Enabled(r, op) then Step(r, op) else r;
      assert NotYet(s, ops[..m], a) && KeepsPlace(s, ops[..m], a);
      assert Dispatches(s, ops) ==
             Dispatches(s, ops[..m]) + if op == Dispatch && Enabled(r, Dispatch) then 1 else 0;
      hide Run, NotYet, Dispatches, KeepsPlace;
      TurnRun(s, ops[..m], a, n);
      NotRequeued(s, ops, r, a, m);
      TurnLast(r, op, a, n - Dispatches(s, ops[..m]));
    }
  }

  lemma TurnLast(r: State, op: Op, a: Tid, c: nat)
    requires Inv(r) && RUNQ in r.queues && InLine(r.queues[RUNQ], a, c) && !Requeues(r, op, a)
    requires Enabled(r, op) ==> Step(r, op).cur != Some(a)
    ensures var x := if Enabled(r, op) then Step(r, op) else r;
            var d := if op == Dispatch && Enabled(r, Dispatch) then 1 else 0;
            Inv(x) && RUNQ in x.queues && d <= c && InLine(x.queues[RUNQ], a, c - d) && SameStatus(r, x, a)
  {
    InLineKnown(r, a, c);
    hide Inv, InLine, Step, Enabled, Requeues;
    if Enabled(r, op) {
      StepInv(r, op);
      StatusStays(r, op, a);
      TurnStep(r, op, a, c);
    }
  }

  /** The run queue is first come, first served: a thread with n threads before it, unless it was woken by a
      cancel and is cancelled again, runs by the time sched_switch has handed out n + 1 threads, whatever else
      happens. */
  lemma RunsInTurn(s: State, ops: seq<Op>, a: Tid, n: nat)
    requires Inv(s) && InLine(s.queues[RUNQ], a, n) && KeepsPlace(s, ops, a) && Dispatches(s, ops) > n
    ensures exists k: nat :: k <= |ops| && Run(s, ops[..k]).cur == Some(a)
  {
    if NotYet(s, ops, a) { TurnRun(s, ops, a, n); } else { SomeTurn(s, ops, a); }
  }

  // ----- Threads run in the order in which they became runnable -----

  lemma CancelledAhead(q: seq<Tid>, p: seq<Tid>, u: Tid, a: Tid, b: Tid)
    requires Ahead(q, a, b) && Left(q, p, u) && u != a
    ensures Ahead([u] + p, a, b)
  {
    var i, j :| 0 <= i < j < |q| && q[i] == b && q[j] == a;
    var l :| 0 <= l < |q| && q[l] == u && p == q[..l] + q[l + 1..];
    var r := [u] + p;
    assert r[if l < j then j else j + 1] == a;
    assert u == b ==> r[0] == b;
    assert u != b ==> r[if l < i then i else i + 1] == b;
  }

  lemma JoinedAhead(q: seq<Tid>, xs: seq<Tid>, a: Tid, b: Tid)
    requires Ahead(q, a, b)
    ensures Ahead(xs + q, a, b)
  {
    var i, j :| 0 <= i < j < |q| && q[i] == b && q[j] == a;
    assert (xs + q)[|xs| + i] == b && (xs + q)[|xs| + j] == a;
  }

  lemma PoppedAhead(q: seq<Tid>, a: Tid, b: Tid)
    requires Ahead(q, a, b)
    ensures q != [] && (q[|q| - 1] != a ==> Ahead(q[..|q| - 1], a, b))
  {
    var i, j :| 0 <= i < j < |q| && q[i] == b && q[j] == a;
    assert j < |q| - 1 ==> q[..|q| - 1][i] == b && q[..|q| - 1][j] == a;
  }

  lemma RequeuedBehind(s: State, p: seq<Tid>, a: Tid, b: Tid)
    requires Inv(s) && Left(s.queues[RUNQ], p, a)
    ensures !Ahead([a] + p, a, b)
  {
    assert QueueOk(s, RUNQ);
  }

  /** Two threads of the run queue change places if and only if the one before is cancelled again. */
  lemma OrderStep(s: State, op: Op, a: Tid, b: Tid)
    requires Inv(s) && Enabled(s, op) && Ahead(s.queues[RUNQ], a, b)
    ensures RUNQ in Step(s, op).queues
    ensures (op == Dispatch && Step(s, op).cur == Some(a)) ||
            (Ahead(Step(s, op).queues[RUNQ], a, b) <==> !Requeues(s, op, a))
  {
    QueuedKnown(s, RUNQ);
    AheadQueued(s.queues[RUNQ], a, b);
    hide Inv, Step, Left, Ahead;
    RunqMoves(s, op);
    var q, r := s.queues[RUNQ], Step(s, op).queues[RUNQ];
    PoppedAhead(q, a, b);
    if op.Cancel? && s.threads[op.t].status == SleepingCancellable && s.threads[op.t].wchan == Some(RUNQ) {
      var p :| Left(q, p, op.t) && r == [op.t] + p;
      if op.t == a { RequeuedBehind(s, p, a, b); } else { CancelledAhead(q, p, op.t, a, b); }
    } else if op != Dispatch {
      var xs :| r == xs + q;
      JoinedAhead(q, xs, a, b);
    }
  }

  lemma AheadQueued(q: seq<Tid>, a: Tid, b: Tid)
    requires Ahead(q, a, b)
    ensures a in q && b in q
  {
  }

  /** As long as a thread has not run, and is not cancelled a second time, whoever stands behind it on the run queue
      still does, and so does not run either. */
  lemma {:induction false} RunsInOrder(s: State, ops: seq<Op>, a: Tid, b: Tid)
    requires Inv(s) && RUNQ in s.queues && Ahead(s.queues[RUNQ], a, b) && KeepsPlace(s, ops, a)
    requires NotYet(s, ops, a)
    ensures Inv(Run(s, ops)) && RUNQ in Run(s, ops).queues && Ahead(Run(s, ops).queues[RUNQ], a, b)
    ensures SameStatus(s, Run(s, ops), a)
    ensures Run(s, ops).cur != Some(b)
  {
    QueuedKnown(s, RUNQ);
    AheadQueued(s.queues[RUNQ], a, b);
    hide Inv, Ahead, Step, Enabled, Requeues;
    if ops != [] {
      var m := |ops| - 1;
      RunsInOrder(s, ops[..m], a, b);
      var r := Run(s, ops[..m]);
      if Enabled(r, ops[m]) {
        NotRequeued(s, ops, r, a, m);
        StepInv(r, ops[m]);
        AheadQueued(r.queues[RUNQ], a, b);
        StatusStays(r, ops[m], a);
        OrderStep(r, ops[m], a, b);
      }
    }
    QueuedNotRunning(Run(s, ops), a, b);
  }

  lemma QueuedNotRunning(s: State, a: Tid, b: Tid)
    requires Inv(s) && Ahead(s.queues[RUNQ], a, b)
    ensures s.cur != Some(b)
  {
    assert QueueOk(s, RUNQ) && b in s.queues[RUNQ];
    assert ThreadOk(s, b, s.threads[b]);
  }

  // ----- A thread that loses its place -----

  const WAITS: Qid := 2

  /** Threads 0, 1 and 3, the run queue and one wait queue. */
  function Three(run: seq<Tid>, wait: seq<Tid>, x: Thread, y: Thread, z: Thread, cur: Option<Tid>): State {
    State(map[RUNQ := run, WAITS := wait], map[RUNQ := |run|, WAITS := |wait|], map[0 := x, 1 := y, 3 := z], cur, map[])
  }

  function Active(w: Option<Qid>, status: Status): Thread {
    Thread(w, status, false, true)
  }

  function Outset(): State {
    State(map[RUNQ := [], WAITS := []], map[RUNQ := 0, WAITS := 0], map[0 := Active(None, Running)], Some(0), map[])
  }

  const START: seq<Op> := [Create(1), Create(3), Begin(1), Begin(3)]
  const SLEEP: seq<Op> := START + [SleepOn(WAITS), Dispatch, CancellableSleepOn(WAITS), Dispatch]
  const TWICE: seq<Op> := SLEEP + [Cancel(1), WakeupOn(WAITS)]

  lemma Created()
    ensures RunOne(RunOne(Outset(), Create(1)), Create(3)) ==
            Three([], [], Active(None, Running), Thread(None, NoState, false, false),
                  Thread(None, NoState, false, false), Some(0))
  {
  }

  lemma BeginSecond()
    ensures RunOne(Three([], [], Active(None, Running), Thread(None, NoState, false, false),
                         Thread(None, NoState, false, false), Some(0)), Begin(1)) ==
            Three([1], [], Active(None, Running), Active(Some(RUNQ), NoState),
                  Thread(None, NoState, false, false), Some(0))
  {
    assert [1] + [] == [1];
  }

  lemma BeginThird()
    ensures RunOne(Three([1], [], Active(None, Running), Active(Some(RUNQ), NoState),
                         Thread(None, NoState, false, false), Some(0)), Begin(3)) ==
            Three([3, 1], [], Active(None, Running), Active(Some(RUNQ), NoState), Active(Some(RUNQ), NoState), Some(0))
  {
    assert [3] + [1] == [3, 1];
  }

  lemma Started()
    ensures Run(Outset(), START) ==
            Three([3, 1], [], Active(None, Running), Active(Some(RUNQ), NoState), Active(Some(RUNQ), NoState), Some(0))
  {
    RunFour(Outset(), [], Create(1), Create(3), Begin(1), Begin(3));
    assert [] + START == START;
    hide RunOne, Three, Outset;
    Created();
    BeginSecond();
    BeginThird();
  }

  lemma RunFour(s: State, ops: seq<Op>, a: Op, b: Op, c: Op, d: Op)
    ensures var x := RunOne(Run(s, ops), a);
            Run(s, ops + [a, b, c, d]) == RunOne(RunOne(RunOne(x, b), c), d)
  {
    hide Run, RunOne;
    RunMore(s, ops, a);
    RunMore(s, ops + [a], b);
    RunMore(s, ops + [a] + [b], c);
    RunMore(s, ops + [a] + [b] + [c], d);
    assert ops + [a, b, c, d] == ops + [a] + [b] + [c] + [d];
  }

  function RunOne(s: State, op: Op): State {
    if Enabled(s, op) then Step(s, op) else s
  }

  lemma RunMore(s: State, ops: seq<Op>, op: Op)
    ensures Run(s, ops + [op]) == RunOne(Run(s, ops), op)
  {
    hide Enabled, Step;
    assert (ops + [op])[..|ops|] == ops;
  }

  lemma Asleep()
    ensures Run(Outset(), SLEEP) ==
            Three([], [1, 0], Active(Some(WAITS), Sleeping), Active(Some(WAITS), SleepingCancellable),
                  Active(None, NoState), Some(3))
  {
    hide Run, RunOne;
    Started();
    RunFour(Outset(), START, SleepOn(WAITS), Dispatch, CancellableSleepOn(WAITS), Dispatch);
    FirstSleeps();
    SecondRuns();
    SecondSleeps();
    ThirdRuns();
  }

  lemma FirstSleeps()
    ensures RunOne(Three([3, 1], [], Active(None, Running), Active(Some(RUNQ), NoState), Active(Some(RUNQ), NoState),
                         Some(0)), SleepOn(WAITS)) ==
            Three([3, 1], [0], Active(Some(WAITS), Sleeping), Active(Some(RUNQ), NoState),
                  Active(Some(RUNQ), NoState), None)
  {
    assert [0] + [] == [0];
  }

  lemma SecondRuns()
    ensures RunOne(Three([3, 1], [0], Active(Some(WAITS), Sleeping), Active(Some(RUNQ), NoState),
                         Active(Some(RUNQ), NoState), None), Dispatch) ==
            Three([3], [0], Active(Some(WAITS), Sleeping), Active(None, NoState), Active(Some(RUNQ), NoState), Some(1))
  {
    assert [3, 1][1..] == [1] && Without([1], 1) == [];
    assert Without([3, 1], 1) == [3];
  }

  lemma SecondSleeps()
    ensures RunOne(Three([3], [0], Active(Some(WAITS), Sleeping), Active(None, NoState), Active(Some(RUNQ), NoState),
                         Some(1)), CancellableSleepOn(WAITS)) ==
            Three([3], [1, 0], Active(Some(WAITS), Sleeping), Active(Some(WAITS), SleepingCancellable),
                  Active(Some(RUNQ), NoState), None)
  {
    assert [1] + [0] == [1, 0];
  }

  lemma ThirdRuns()
    ensures RunOne(Three([3], [1, 0], Active(Some(WAITS), Sleeping), Active(Some(WAITS), SleepingCancellable),
                         Active(Some(RUNQ), NoState), None), Dispatch) ==
            Three([], [1, 0], Active(Some(WAITS), Sleeping), Active(Some(WAITS), SleepingCancellable),
                  Active(None, NoState), Some(3))
  {
    assert Without([3], 3) == [];
  }

  lemma Woken()
    ensures Run(Outset(), TWICE) ==
            Three([0, 1], [], Active(Some(RUNQ), Running), Thread(Some(RUNQ), SleepingCancellable, true, true),
                  Active(None, NoState), Some(3))
  {
    hide Run, RunOne;
    Asleep();
    RunMore(Outset(), SLEEP, Cancel(1));
    RunMore(Outset(), SLEEP + [Cancel(1)], WakeupOn(WAITS));
    assert TWICE == SLEEP + [Cancel(1)] + [WakeupOn(WAITS)];
    CancelWakes();
    WakeupWakes();
  }

  lemma CancelWakes()
    ensures RunOne(Three([], [1, 0], Active(Some(WAITS), Sleeping), Active(Some(WAITS), SleepingCancellable),
                         Active(None, NoState), Some(3)), Cancel(1)) ==
            Three([1], [0], Active(Some(WAITS), Sleeping), Thread(Some(RUNQ), SleepingCancellable, true, true),
                  Active(None, NoState), Some(3))
  {
    assert Without([1, 0], 1) == [0];
    assert [1] + [] == [1];
  }

  lemma WakeupWakes()
    ensures RunOne(Three([1], [0], Active(Some(WAITS), Sleeping), Thread(Some(RUNQ), SleepingCancellable, true, true),
                         Active(None, NoState), Some(3)), WakeupOn(WAITS)) ==
            Three([0, 1], [], Active(Some(RUNQ), Running), Thread(Some(RUNQ), SleepingCancellable, true, true),
                  Active(None, NoState), Some(3))
  {
    assert Without([0], 0) == [];
    assert [0] + [1] == [0, 1];
  }

  /** A run from the start after which thread 1 stands on the run queue before thread 0, until it is
      cancelled a second time and stands behind it. */
  lemma RequeueExample()
    ensures Initial(Outset())
    ensures var q := Run(Outset(), TWICE).queues; RUNQ in q && q[RUNQ] == [0, 1]
    ensures var q := Run(Outset(), TWICE + [Cancel(1)]).queues; RUNQ in q && q[RUNQ] == [1, 0]
  {
    hide Run;
    Woken();
    RunMore(Outset(), TWICE, Cancel(1));
  }
}
