/** The process table of kernel/proc/proc.c: pids, parents and children, zombies and reaping. */
module Procs {
  import opened Wrappers
  import opened Lists

  type Pid = nat

  const IDLE: Pid := 0
  const INIT: Pid := 1

  /** uid tells apart processes that had the same pid at different times. */
  datatype Proc = Proc(uid: nat, parent: Option<Pid>, children: seq<Pid>, dead: bool, status: int)

  /** exited and reaped are the history: what every process exited with, and who was waited for. */
  datatype Table = Table(procs: map<Pid, Proc>, nextUid: nat, exited: map<nat, int>, reaped: set<nat>)

  // ----- Choosing a pid -----

  /** The d-th pid counting up from next and around. */
  function Nth(next: Pid, d: nat, max: nat): int {
    if next + d < max then next + d else next + d - max
  }

  /** pid is the first free one, counting up from next and around. */
  ghost predicate FirstFree(used: seq<Pid>, next: Pid, max: nat, pid: Pid)
  {
    exists d: nat :: d < max && pid == Nth(next, d, max) && pid !in used && forall e: nat | e < d ::
      Nth(next, e, max) in used
  }

  lemma NthNext(next: Pid, d: nat, max: nat)
    requires next < max && d < max
    ensures (Nth(next, d, max) + 1) % max == if d + 1 < max then Nth(next, d + 1, max) else next
    ensures d + 1 < max ==> Nth(next, d + 1, max) != next
  {
    var pid := Nth(next, d, max);
    if pid + 1 == max {
      assert (pid + 1) % max == 0;
    } else {
      assert (pid + 1) % max == pid + 1;
    }
  }

  lemma NthCovers(used: seq<Pid>, next: Pid, max: nat)
    requires next < max && forall e: nat | e < max :: Nth(next, e, max) in used
    ensures forall p: Pid | p < max :: p in used
  {
    forall p: Pid | p < max
      ensures p in used
    {
      assert Nth(next, if p >= next then p - next else p + max - next, max) == p;
    }
  }

  method InUse(list: seq<Pid>, pid: Pid) returns (used: bool)
    ensures used <==> pid in list
  {
    for i := 0 to |list|
      invariant pid !in list[..i]
    {
      if list[i] == pid {
        return true;
      }
    }
    return false;
  }

  /** _proc_getid: None, for -1, exactly when every pid is in use. */
  method GetId(list: seq<Pid>, next: Pid, max: nat) returns (r: Option<Pid>)
    requires next < max
    ensures r.Some? ==> FirstFree(list, next, max, r.value)
    ensures r.None? ==> forall p: Pid | p < max :: p in list
  {
    assert Nth(next, 0, max) == next;
    hide Nth;
    var pid, d := next, 0;
    while true
      invariant 0 <= d < max && pid == Nth(next, d, max) && forall e: nat | e < d :: Nth(next, e, max) in list
      decreases max - d
    {
      var used := InUse(list, pid);
      if !used {
        return Some(pid);
      }
      NthNext(next, d, max);
      pid := (pid + 1) % max;
      d := d + 1;
      if pid == next {
        NthCovers(list, next, max);
        return None;
      }
    }
  }

  // ----- The invariant -----

  /** Parent and child agree. */
  ghost predicate FamilyOk(t: Table) {
    forall q | q in t.procs :: FamilyAt(t, q)
  }

  ghost predicate FamilyAt(t: Table, q: Pid)
    requires q in t.procs
  {
    && NoDup(t.procs[q].children)
    && forall c :: c in t.procs[q].children <==> c in t.procs && t.procs[c].parent == Some(q)
  }

  /** Every process but idle has a live parent, and a dead one has no children. */
  predicate ProcOk(t: Table, p: Pid, x: Proc) {
    && (p == IDLE <==> x.parent == None) && x.parent != Some(p)
    && (x.parent.Some? ==> x.parent.value in t.procs && !t.procs[x.parent.value].dead)
    && (x.dead ==> x.children == [])
    && (p == IDLE ==> !x.dead) && (p == INIT ==> x.parent == Some(IDLE))
  }

  /** Histories agree with the table: a zombie still has the status it exited with and was not
      waited for; a live process did not exit. */
  predicate HistoryOk(t: Table, x: Proc) {
    && x.uid < t.nextUid
    && (x.dead ==> x.uid in t.exited && t.exited[x.uid] == x.status && x.uid !in t.reaped)
    && (!x.dead ==> x.uid !in t.exited)
  }

  ghost predicate UidsOk(t: Table) {
    && (forall p, q | p in t.procs && q in t.procs && t.procs[p].uid == t.procs[q].uid :: p == q)
    && (forall u | u in t.exited :: u < t.nextUid)
    && (forall u | u in t.reaped :: u in t.exited)
  }

  /** n steps up from p lead to idle. */
  predicate Climbs(t: Table, p: Pid, n: nat)
    decreases n
  {
    if n == 0 then p == IDLE && p in t.procs
    else p in t.procs && t.procs[p].parent.Some? && Climbs(t, t.procs[p].parent.value, n - 1)
  }

  ghost predicate Rooted(t: Table, p: Pid) {
    exists n: nat :: Climbs(t, p, n)
  }

  ghost predicate ProcsOk(t: Table) {
    IDLE in t.procs && forall p | p in t.procs :: ProcOk(t, p, t.procs[p])
  }

  ghost predicate HistoriesOk(t: Table) {
    UidsOk(t) && forall p | p in t.procs :: HistoryOk(t, t.procs[p])
  }

  ghost predicate AllRooted(t: Table) {
    forall p | p in t.procs :: Rooted(t, p)
  }

  ghost predicate Inv(t: Table) {
    ProcsOk(t) && FamilyOk(t) && HistoriesOk(t) && AllRooted(t)
  }

  // ----- Steps -----

  /** proc_create by process p. */
  function Create(t: Table, p: Pid, pid: Pid): Table
    requires p in t.procs
  {
    var x := t.procs[p];
    Table(t.procs[p := x.(children := x.children + [pid])][pid := Proc(t.nextUid, Some(p), [], false, 0)],
          t.nextUid + 1, t.exited, t.reaped)
  }

  /** proc_cleanup of process p; its children move to init. */
  function Cleanup(t: Table, p: Pid, status: int): Table
    requires p in t.procs && (t.procs[p].children != [] ==> INIT in t.procs)
  {
    var x := t.procs[p];
    Table(map q | q in t.procs :: Moved(t, p, status, q), t.nextUid, t.exited[x.uid := status], t.reaped)
  }

  function Moved(t: Table, p: Pid, status: int, q: Pid): Proc
    requires p in t.procs && q in t.procs
  {
    var x := t.procs[q];
    if q == p then Proc(x.uid, x.parent, [], true, status)
    else if x.parent == Some(p) then x.(parent := Some(INIT))
    else if q == INIT then x.(children := x.children + t.procs[p].children)
    else x
  }

  /** do_waitpid by p, once it found the dead child c. */
  function Reap(t: Table, p: Pid, c: Pid): Table
    requires p in t.procs && c in t.procs
  {
    var x := t.procs[p];
    Table(t.procs[p := x.(children := Without(x.children, c))] - {c},
          t.nextUid, t.exited, t.reaped + {t.procs[c].uid})
  }

  datatype Op = DoCreate(p: Pid, pid: Pid) | DoExit(p: Pid, status: int) | DoWait(p: Pid, c: Pid)

  /** Init exits childless, and is alive when a process with children exits. */
  predicate Enabled(t: Table, op: Op) {
    op.p in t.procs && !t.procs[op.p].dead &&
    match op
    case DoCreate(p, pid) => pid !in t.procs && (pid == INIT ==> p == IDLE)
    case DoExit(p, _) =>
      && p != IDLE && (t.procs[p].children != [] ==> p != INIT && INIT in t.procs && !t.procs[INIT].dead)
    case DoWait(p, c) => c in t.procs[p].children && c in t.procs && t.procs[c].dead
  }

  function Step(t: Table, op: Op): Table
    requires Enabled(t, op)
  {
    match op
    case DoCreate(p, pid) => Create(t, p, pid)
    case DoExit(p, status) => Cleanup(t, p, status)
    case DoWait(p, c) => Reap(t, p, c)
  }

  // ----- Climbing to idle -----

  /** Parents that are still there are still the way up; whoever lost theirs has init, below idle. */
  lemma {:induction false} ClimbsKept(t: Table, r: Table, p: Pid, n: nat) returns (m: nat)
    requires Climbs(t, p, n) && IDLE in r.procs
    requires forall q | q in t.procs && Climbing(t, q) :: StillUp(t, r, q)
    requires p in r.procs
    ensures Climbs(r, p, m)
    decreases n
  {
    if p == IDLE {
      m := 0;
    } else {
      assert Climbing(t, p) && StillUp(t, r, p);
      var q := r.procs[p].parent.value;
      if q == t.procs[p].parent.value {
        var k := ClimbsKept(t, r, q, n - 1);
        m := k + 1;
      } else {
        assert Climbs(r, IDLE, 0) && Climbs(r, INIT, 1);
        m := 2;
      }
    }
  }

  predicate Climbing(t: Table, q: Pid) {
    q in t.procs && q != IDLE && t.procs[q].parent.Some?
  }

  predicate StillUp(t: Table, r: Table, q: Pid)
    requires Climbing(t, q)
  {
    q in r.procs ==>
      && r.procs[q].parent.Some? && r.procs[q].parent.value in r.procs
      && (r.procs[q].parent == t.procs[q].parent ||
          (r.procs[q].parent == Some(INIT) && r.procs[INIT].parent == Some(IDLE)))
  }

  lemma RootedKept(t: Table, r: Table, p: Pid)
    requires Rooted(t, p) && IDLE in r.procs && p in r.procs
    requires forall q | q in t.procs && Climbing(t, q) :: StillUp(t, r, q)
    ensures Rooted(r, p)
  {
    var n: nat :| Climbs(t, p, n);
    var m := ClimbsKept(t, r, p, n);
  }

  /** Everyone still climbs to idle if the links up are kept or lead to init. */
  lemma AllRootedKept(t: Table, r: Table)
    requires AllRooted(t) && IDLE in r.procs
    requires forall q | q in t.procs && Climbing(t, q) :: StillUp(t, r, q)
    ensures forall q | q in r.procs && q in t.procs :: Rooted(r, q)
  {
    forall q | q in r.procs && q in t.procs
      ensures Rooted(r, q)
    {
      RootedKept(t, r, q);
    }
  }

  // ----- Each step keeps the invariant -----

  lemma CreateProc(t: Table, p: Pid, pid: Pid, q: Pid)
    requires Enabled(t, DoCreate(p, pid)) && IDLE in t.procs && (q != pid ==> q in t.procs && ProcOk(t, q, t.procs[q]))
    ensures ProcOk(Create(t, p, pid), q, Create(t, p, pid).procs[q])
  {
  }

  lemma CreateProcs(t: Table, p: Pid, pid: Pid)
    requires ProcsOk(t) && Enabled(t, DoCreate(p, pid))
    ensures ProcsOk(Create(t, p, pid))
  {
    hide ProcOk;
    forall q | q in Create(t, p, pid).procs
      ensures ProcOk(Create(t, p, pid), q, Create(t, p, pid).procs[q])
    {
      CreateProc(t, p, pid, q);
    }
  }

  lemma CreateHistories(t: Table, p: Pid, pid: Pid)
    requires HistoriesOk(t) && Enabled(t, DoCreate(p, pid))
    ensures HistoriesOk(Create(t, p, pid))
  {
    var r := Create(t, p, pid);
    forall q | q in r.procs
      ensures HistoryOk(r, r.procs[q])
    {
      assert q != pid ==> HistoryOk(t, t.procs[q]);
    }
    assert forall q | q in t.procs :: HistoryOk(t, t.procs[q]);
  }

  lemma CreateRooted(t: Table, p: Pid, pid: Pid)
    requires ProcsOk(t) && AllRooted(t) && Enabled(t, DoCreate(p, pid))
    ensures AllRooted(Create(t, p, pid))
  {
    var r := Create(t, p, pid);
    forall q | q in t.procs && Climbing(t, q)
      ensures StillUp(t, r, q)
    {
      assert ProcOk(t, q, t.procs[q]);
    }
    AllRootedKept(t, r);
    assert Rooted(r, p);
    var n: nat :| Climbs(r, p, n);
    assert Climbs(r, pid, n + 1);
  }

  lemma CreateFamily(t: Table, p: Pid, pid: Pid)
    requires ProcsOk(t) && FamilyOk(t) && Enabled(t, DoCreate(p, pid))
    ensures FamilyOk(Create(t, p, pid))
  {
    hide FamilyAt;
    forall q | q in Create(t, p, pid).procs
      ensures FamilyAt(Create(t, p, pid), q)
    {
      CreateFamilyAt(t, p, pid, q);
    }
  }

  lemma CreateFamilyAt(t: Table, p: Pid, pid: Pid, q: Pid)
    requires ProcsOk(t) && FamilyOk(t) && Enabled(t, DoCreate(p, pid)) && q in Create(t, p, pid).procs
    ensures FamilyAt(Create(t, p, pid), q)
  {
    hide ProcOk, FamilyAt;
    if q == pid {
      CreateChildless(t, p, pid);
    } else if q == p {
      CreateOwn(t, p, pid);
    } else {
      CreateOthers(t, p, pid, q);
    }
  }

  /** Nobody is a child of a process that was not there. */
  lemma CreateChildless(t: Table, p: Pid, pid: Pid)
    requires ProcsOk(t) && Enabled(t, DoCreate(p, pid))
    ensures FamilyAt(Create(t, p, pid), pid)
  {
    assert forall c | c in t.procs :: ProcOk(t, c, t.procs[c]);
  }

  lemma CreateOwn(t: Table, p: Pid, pid: Pid)
    requires Enabled(t, DoCreate(p, pid)) && FamilyAt(t, p)
    ensures FamilyAt(Create(t, p, pid), p)
  {
    assert pid !in t.procs[p].children;
    NoDupAppend(t.procs[p].children, [pid]);
  }

  lemma CreateOthers(t: Table, p: Pid, pid: Pid, q: Pid)
    requires Enabled(t, DoCreate(p, pid)) && q in t.procs && q != p && FamilyAt(t, q)
    ensures FamilyAt(Create(t, p, pid), q)
  {
  }

  // ----- exit -----

  lemma CleanupProc(t: Table, p: Pid, status: int, q: Pid)
    requires Enabled(t, DoExit(p, status)) && FamilyAt(t, p) && q in t.procs
    requires ProcOk(t, q, t.procs[q]) && ProcOk(t, p, t.procs[p])
    ensures ProcOk(Cleanup(t, p, status), q, Cleanup(t, p, status).procs[q])
  {
    if t.procs[q].parent == Some(p) {
      assert q in t.procs[p].children;
    }
  }

  lemma CleanupProcs(t: Table, p: Pid, status: int)
    requires ProcsOk(t) && FamilyOk(t) && Enabled(t, DoExit(p, status))
    ensures ProcsOk(Cleanup(t, p, status))
  {
    hide ProcOk, FamilyAt;
    forall q | q in Cleanup(t, p, status).procs
      ensures ProcOk(Cleanup(t, p, status), q, Cleanup(t, p, status).procs[q])
    {
      CleanupProc(t, p, status, q);
    }
  }

  lemma CleanupHistories(t: Table, p: Pid, status: int)
    requires HistoriesOk(t) && Enabled(t, DoExit(p, status))
    ensures HistoriesOk(Cleanup(t, p, status))
  {
    var r := Cleanup(t, p, status);
    assert HistoryOk(t, t.procs[p]);
    assert forall q | q in t.procs :: r.procs[q].uid == t.procs[q].uid;
    forall q | q in r.procs
      ensures HistoryOk(r, r.procs[q])
    {
      CleanupHistory(t, p, status, q);
    }
  }

  lemma CleanupHistory(t: Table, p: Pid, status: int, q: Pid)
    requires Enabled(t, DoExit(p, status)) && q in t.procs && HistoryOk(t, t.procs[q]) && HistoryOk(t, t.procs[p])
    requires (t.procs[q].uid == t.procs[p].uid ==> q == p) && t.procs[p].uid !in t.reaped
    ensures HistoryOk(Cleanup(t, p, status), Cleanup(t, p, status).procs[q])
  {
  }

  lemma CleanupRooted(t: Table, p: Pid, status: int)
    requires ProcsOk(t) && FamilyOk(t) && AllRooted(t) && Enabled(t, DoExit(p, status))
    ensures AllRooted(Cleanup(t, p, status))
  {
    var r := Cleanup(t, p, status);
    forall q | q in t.procs && Climbing(t, q)
      ensures StillUp(t, r, q)
    {
      assert ProcOk(t, q, t.procs[q]);
      if t.procs[q].parent == Some(p) {
        assert q in t.procs[p].children;
        assert ProcOk(t, INIT, t.procs[INIT]);
      }
    }
    hide Cleanup;
    AllRootedKept(t, r);
  }

  lemma CleanupFamily(t: Table, p: Pid, status: int)
    requires ProcsOk(t) && FamilyOk(t) && Enabled(t, DoExit(p, status))
    ensures FamilyOk(Cleanup(t, p, status))
  {
    hide FamilyAt, ProcOk;
    forall q | q in Cleanup(t, p, status).procs
      ensures FamilyAt(Cleanup(t, p, status), q)
    {
      if q == INIT && p != INIT {
        AdoptChildren(t, p, status);
      } else {
        KeepChildren(t, p, status, q);
      }
    }
  }

  /** Init gets the children of p behind its own. */
  lemma AdoptChildren(t: Table, p: Pid, status: int)
    requires Enabled(t, DoExit(p, status)) && FamilyAt(t, p) && p != INIT && INIT in t.procs && FamilyAt(t, INIT)
    requires ProcOk(t, p, t.procs[p]) && ProcOk(t, INIT, t.procs[INIT])
    ensures FamilyAt(Cleanup(t, p, status), INIT)
  {
    NoDupAppend(t.procs[INIT].children, t.procs[p].children);
  }

  lemma KeepChildren(t: Table, p: Pid, status: int, q: Pid)
    requires Enabled(t, DoExit(p, status)) && FamilyAt(t, p) && q in t.procs && FamilyAt(t, q) && (q == INIT ==>
             p == INIT)
    requires ProcOk(t, p, t.procs[p])
    ensures FamilyAt(Cleanup(t, p, status), q)
  {
  }

  // ----- wait -----

  lemma ReapProc(t: Table, p: Pid, c: Pid, q: Pid)
    requires Enabled(t, DoWait(p, c)) && FamilyAt(t, p) && ProcOk(t, c, t.procs[c])
    requires q in t.procs && q != c && ProcOk(t, q, t.procs[q])
    ensures ProcOk(Reap(t, p, c), q, Reap(t, p, c).procs[q])
  {
    assert t.procs[c].parent == Some(p);
  }

  lemma ReapProcs(t: Table, p: Pid, c: Pid)
    requires ProcsOk(t) && FamilyOk(t) && Enabled(t, DoWait(p, c))
    ensures ProcsOk(Reap(t, p, c))
  {
    hide FamilyAt, ProcOk;
    ZombieIsNotIdle(t, p, c);
    forall q | q in Reap(t, p, c).procs
      ensures ProcOk(Reap(t, p, c), q, Reap(t, p, c).procs[q])
    {
      ReapProc(t, p, c, q);
    }
  }

  lemma ZombieIsNotIdle(t: Table, p: Pid, c: Pid)
    requires ProcsOk(t) && FamilyOk(t) && Enabled(t, DoWait(p, c))
    ensures c != IDLE && c != p && t.procs[c].parent == Some(p)
  {
    assert FamilyAt(t, p) && ProcOk(t, c, t.procs[c]);
  }

  lemma ReapHistories(t: Table, p: Pid, c: Pid)
    requires HistoriesOk(t) && Enabled(t, DoWait(p, c)) && p != c
    ensures HistoriesOk(Reap(t, p, c))
  {
    var r := Reap(t, p, c);
    assert HistoryOk(t, t.procs[c]);
    forall q | q in r.procs
      ensures HistoryOk(r, r.procs[q])
    {
      assert HistoryOk(t, t.procs[q]);
      assert t.procs[q].uid != t.procs[c].uid;
    }
  }

  lemma ReapFamily(t: Table, p: Pid, c: Pid)
    requires ProcsOk(t) && FamilyOk(t) && Enabled(t, DoWait(p, c))
    ensures FamilyOk(Reap(t, p, c))
  {
    hide FamilyAt, ProcOk;
    forall q | q in Reap(t, p, c).procs
      ensures FamilyAt(Reap(t, p, c), q)
    {
      ReapFamilyAt(t, p, c, q);
    }
  }

  lemma ReapFamilyAt(t: Table, p: Pid, c: Pid, q: Pid)
    requires Enabled(t, DoWait(p, c)) && FamilyAt(t, p) && q in t.procs && q != c && FamilyAt(t, q)
    ensures FamilyAt(Reap(t, p, c), q)
  {
    if q == p {
      WithoutNoDup(t.procs[p].children, c);
      forall d
        ensures d in Without(t.procs[p].children, c) <==> d in t.procs[p].children && d != c
      {
        WithoutHas(t.procs[p].children, c, d);
      }
    }
  }

  lemma ReapRooted(t: Table, p: Pid, c: Pid)
    requires ProcsOk(t) && FamilyOk(t) && AllRooted(t) && Enabled(t, DoWait(p, c))
    ensures AllRooted(Reap(t, p, c))
  {
    hide FamilyAt, ProcOk, Rooted, StillUp;
    ZombieIsNotIdle(t, p, c);
    var r := Reap(t, p, c);
    forall q | q in t.procs && Climbing(t, q)
      ensures StillUp(t, r, q)
    {
      ReapUp(t, p, c, q);
    }
    AllRootedKept(t, r);
  }

  lemma ReapUp(t: Table, p: Pid, c: Pid, q: Pid)
    requires Enabled(t, DoWait(p, c)) && FamilyAt(t, p) && ProcOk(t, c, t.procs[c])
    requires q in t.procs && Climbing(t, q) && ProcOk(t, q, t.procs[q])
    ensures StillUp(t, Reap(t, p, c), q)
  {
    assert t.procs[c].parent == Some(p);
  }

  lemma StepInv(t: Table, op: Op)
    requires Inv(t) && Enabled(t, op)
    ensures Inv(Step(t, op))
  {
    hide ProcsOk, FamilyOk, HistoriesOk, AllRooted, Enabled;
    match op
    case DoCreate(p, pid) =>
      CreateProcs(t, p, pid);
      CreateHistories(t, p, pid);
      CreateFamily(t, p, pid);
      CreateRooted(t, p, pid);
    case DoExit(p, status) =>
      CleanupProcs(t, p, status);
      CleanupHistories(t, p, status);
      CleanupFamily(t, p, status);
      CleanupRooted(t, p, status);
    case DoWait(p, c) =>
      ZombieIsNotIdle(t, p, c);
      ReapProcs(t, p, c);
      ReapHistories(t, p, c);
      ReapFamily(t, p, c);
      ReapRooted(t, p, c);
  }

  // ----- Runs -----

  /** Only idle. */
  function Boot(): Table {
    Table(map[IDLE := Proc(0, None, [], false, 0)], 1, map[], {})
  }

  lemma BootInv()
    ensures Inv(Boot())
  {
    assert Climbs(Boot(), IDLE, 0);
  }

  /** Operations that are not possible are skipped. */
  function Run(t: Table, ops: seq<Op>): Table
    decreases |ops|
  {
    if ops == [] then t else Run(if Enabled(t, ops[0]) then Step(t, ops[0]) else t, ops[1..])
  }

  lemma {:induction false} RunInv(t: Table, ops: seq<Op>)
    requires Inv(t)
    ensures Inv(Run(t, ops))
    decreases |ops|
  {
    hide Inv;
    if ops != [] {
      if Enabled(t, ops[0]) {
        StepInv(t, ops[0]);
        RunInv(Step(t, ops[0]), ops[1..]);
      } else {
        RunInv(t, ops[1..]);
      }
    }
  }

  /** In every reachable table every process but idle is listed once by its parent and by nobody
      else, the parent is alive, and its ancestors lead to idle. */
  lemma FamilyTree(ops: seq<Op>, p: Pid)
    requires p in Run(Boot(), ops).procs && p != IDLE
    ensures var t := Run(Boot(), ops);
            && t.procs[p].parent.Some? && t.procs[p].parent.value in t.procs && !t.procs[t.procs[p].parent.value].dead
            && Rooted(t, p)
            && multiset(t.procs[t.procs[p].parent.value].children)[p] == 1
            && forall q | q in t.procs && p in t.procs[q].children :: t.procs[p].parent == Some(q)
  {
    var t := Run(Boot(), ops);
    BootInv();
    RunInv(Boot(), ops);
    assert ProcOk(t, p, t.procs[p]);
    var q := t.procs[p].parent.value;
    assert FamilyAt(t, q);
    hide Run, Rooted;
    assert p in t.procs[q].children;
    NoDupCount(t.procs[q].children, p);
  }

  lemma {:induction false} NoDupCount(s: seq<nat>, x: nat)
    requires NoDup(s) && x in s
    ensures multiset(s)[x] == 1
  {
    assert s == [s[0]] + s[1..];
    if s[0] == x {
      assert x !in s[1..];
    } else {
      NoDupCount(s[1..], x);
    }
  }

  // ----- Waiting for a child -----

  /** p is alive and has the child c, whose process number is u. */
  predicate HasChild(t: Table, p: Pid, c: Pid, u: nat) {
    p in t.procs && !t.procs[p].dead && c in t.procs[p].children && c in t.procs && t.procs[c].uid == u
  }

  lemma ChildStep(t: Table, op: Op, p: Pid, c: Pid, u: nat)
    requires Inv(t) && Enabled(t, op) && op.p != p && HasChild(t, p, c, u)
    ensures HasChild(Step(t, op), p, c, u)
  {
    assert t.procs[c].parent == Some(p) && c != p by {
      assert FamilyAt(t, p) && ProcOk(t, c, t.procs[c]);
    }
    assert op.DoWait? ==> t.procs[op.c].parent == Some(op.p) by { assert FamilyAt(t, op.p); }
    hide Inv;
    match op
    case DoCreate(_, _) =>
    case DoExit(q, status) => ChildExit(t, q, status, p, c, u);
    case DoWait(q, d) => ChildReap(t, q, d, p, c, u);
  }

  lemma ChildExit(t: Table, q: Pid, status: int, p: Pid, c: Pid, u: nat)
    requires Enabled(t, DoExit(q, status)) && q != p && HasChild(t, p, c, u) && t.procs[c].parent == Some(p)
    ensures HasChild(Cleanup(t, q, status), p, c, u)
  {
    var r := Cleanup(t, q, status);
    assert r.procs[p] == Moved(t, q, status, p) && r.procs[c] == Moved(t, q, status, c);
  }

  lemma ChildReap(t: Table, q: Pid, d: Pid, p: Pid, c: Pid, u: nat)
    requires Enabled(t, DoWait(q, d)) && q != p && HasChild(t, p, c, u)
    requires t.procs[c].parent == Some(p) && t.procs[d].parent == Some(q)
    ensures HasChild(Reap(t, q, d), p, c, u)
  {
  }

  lemma {:induction false} ChildKept(t: Table, ops: seq<Op>, p: Pid, c: Pid, u: nat)
    requires Inv(t) && HasChild(t, p, c, u)
    requires forall i | 0 <= i < |ops| :: ops[i].p != p
    ensures Inv(Run(t, ops)) && HasChild(Run(t, ops), p, c, u)
    decreases |ops|
  {
    hide Inv, Enabled, Step, HasChild;
    if ops != [] {
      assert forall i | 0 <= i < |ops[1..]| :: ops[1..][i] == ops[i + 1];
      if Enabled(t, ops[0]) {
        StepInv(t, ops[0]);
        ChildStep(t, ops[0], p, c, u);
        ChildKept(Step(t, ops[0]), ops[1..], p, c, u);
      } else {
        ChildKept(t, ops[1..], p, c, u);
      }
    }
  }

  /** While p sleeps in do_waitpid its child stays where it is, alive or as a zombie: nobody else reaps it,
      its pid is not given to another process, and p itself stays. So the call never comes to find that it
      has no such child, and once the child is dead it is reaped with the status it exited with. */
  lemma {:induction false} ChildStays(t: Table, ops: seq<Op>, p: Pid, c: Pid)
    requires Inv(t) && p in t.procs && !t.procs[p].dead && c in t.procs[p].children && c in t.procs
    requires forall i | 0 <= i < |ops| :: ops[i].p != p
    ensures var r, u := Run(t, ops), t.procs[c].uid;
            && HasChild(r, p, c, u)
            && (r.procs[c].dead <==> u in r.exited)
            && (r.procs[c].dead ==> Enabled(r, DoWait(p, c)) && Report(r, DoWait(p, c)) == [Waited(u, r.exited[u])])
  {
    ChildKept(t, ops, p, c, t.procs[c].uid);
    var r := Run(t, ops);
    hide Run;
    assert HistoryOk(r, r.procs[c]);
  }

  // ----- Each exit is waited for at most once, with the right status -----

  /** The process an operation makes exit or waits for, and the status it gives. */
  datatype Event = Exited(uid: nat, status: int) | Waited(uid: nat, status: int)

  /** What a step reports. */
  function Report(t: Table, op: Op): seq<Event>
    requires Enabled(t, op)
  {
    match op
    case DoCreate(_, _) => []
    case DoExit(p, status) => [Exited(t.procs[p].uid, status)]
    case DoWait(_, c) => [Waited(t.procs[c].uid, t.procs[c].status)]
  }

  function Trace(t: Table, ops: seq<Op>): seq<Event>
    decreases |ops|
  {
    if ops == [] then []
    else if Enabled(t, ops[0]) then Report(t, ops[0]) + Trace(Step(t, ops[0]), ops[1..])
    else Trace(t, ops[1..])
  }

  /** The recorded history is that of the events e. */
  ghost predicate Matches(t: Table, e: seq<Event>) {
    && (forall u :: u in t.reaped <==> exists i :: 0 <= i < |e| && e[i].Waited? && e[i].uid == u)
    && (forall u | u in t.exited :: Exited(u, t.exited[u]) in e)
    && (forall i | 0 <= i < |e| :: e[i].uid in t.exited)
    && Lawful(e)
  }

  /** Nobody exits twice; every wait reports the status of an earlier exit, for a process that was
      not waited for before. */
  ghost predicate Lawful(e: seq<Event>) {
    forall i | 0 <= i < |e| :: LawfulAt(e, i)
  }

  ghost predicate LawfulAt(e: seq<Event>, i: nat)
    requires i < |e|
  {
    match e[i]
    case Exited(u, _) => forall j | 0 <= j < i :: e[j].uid != u
    case Waited(u, status) => Exited(u, status) in e[..i] && forall j | 0 <= j < i && e[j].uid == u ::
      e[j] == Exited(u, status)
  }

  lemma LawfulMore(e: seq<Event>, x: Event)
    requires Lawful(e) && LawfulAt(e + [x], |e|)
    ensures Lawful(e + [x])
  {
    forall i | 0 <= i < |e + [x]|
      ensures LawfulAt(e + [x], i)
    {
      if i < |e| {
        assert LawfulAt(e, i) && (e + [x])[..i] == e[..i];
      }
    }
  }

  lemma MatchesExit(t: Table, e: seq<Event>, p: Pid, status: int)
    requires HistoriesOk(t) && Enabled(t, DoExit(p, status)) && Matches(t, e)
    ensures Matches(Cleanup(t, p, status), e + [Exited(t.procs[p].uid, status)])
  {
    var x := Exited(t.procs[p].uid, status);
    assert HistoryOk(t, t.procs[p]);
    LawfulMore(e, x);
    hide Lawful, HistoriesOk;
    ReapedMore(t, e, x);
  }

  lemma MatchesWait(t: Table, e: seq<Event>, p: Pid, c: Pid)
    requires HistoriesOk(t) && Enabled(t, DoWait(p, c)) && Matches(t, e)
    ensures Matches(Reap(t, p, c), e + [Waited(t.procs[c].uid, t.procs[c].status)])
  {
    var x := Waited(t.procs[c].uid, t.procs[c].status);
    assert HistoryOk(t, t.procs[c]);
    assert LawfulAt(e + [x], |e|) by {
      assert (e + [x])[..|e|] == e;
      hide HistoriesOk;
      forall j | 0 <= j < |e| && e[j].uid == x.uid
        ensures e[j] == Exited(x.uid, x.status)
      {
        assert e[j].Exited?;
        OneExit(e, j, x.uid, t.exited[x.uid]);
      }
    }
    LawfulMore(e, x);
    hide Lawful, HistoriesOk;
    ReapedMore(t, e, x);
  }

  /** The exit of a process is unique. */
  lemma OneExit(e: seq<Event>, j: nat, u: nat, status: int)
    requires Lawful(e) && j < |e| && e[j].Exited? && e[j].uid == u && Exited(u, status) in e
    ensures e[j] == Exited(u, status)
  {
    var i :| 0 <= i < |e| && e[i] == Exited(u, status);
    assert LawfulAt(e, i) && LawfulAt(e, j);
  }

  lemma ReapedMore(t: Table, e: seq<Event>, x: Event)
    requires Matches(t, e)
    ensures forall u :: (u in t.reaped || (x.Waited? && u == x.uid)) <==>
                        exists i :: 0 <= i < |e + [x]| && (e + [x])[i].Waited? && (e + [x])[i].uid == u
    ensures forall i | 0 <= i < |e + [x]| :: (e + [x])[i].uid in t.exited || (e + [x])[i] == x
  {
    forall u
      ensures (u in t.reaped || (x.Waited? && u == x.uid)) <==>
              exists i :: 0 <= i < |e + [x]| && (e + [x])[i].Waited? && (e + [x])[i].uid == u
    {
      if u in t.reaped {
        var i :| 0 <= i < |e| && e[i].Waited? && e[i].uid == u;
        assert (e + [x])[i] == e[i];
      } else if x.Waited? && u == x.uid {
        assert (e + [x])[|e|] == x;
      }
    }
  }

  lemma {:induction false} TraceMatches(t: Table, e: seq<Event>, ops: seq<Op>)
    requires Inv(t) && Matches(t, e)
    ensures Matches(Run(t, ops), e + Trace(t, ops))
    decreases |ops|
  {
    hide Inv, Matches, Enabled;
    if ops == [] {
      assert e + Trace(t, ops) == e;
    } else if Enabled(t, ops[0]) {
      var e' := e + Report(t, ops[0]);
      StepMatches(t, e, ops[0]);
      StepInv(t, ops[0]);
      TraceMatches(Step(t, ops[0]), e', ops[1..]);
      assert e' + Trace(Step(t, ops[0]), ops[1..]) == e + Trace(t, ops);
    } else {
      TraceMatches(t, e, ops[1..]);
    }
  }

  lemma StepMatches(t: Table, e: seq<Event>, op: Op)
    requires Inv(t) && Enabled(t, op) && Matches(t, e)
    ensures Matches(Step(t, op), e + Report(t, op))
  {
    hide HistoriesOk, ProcsOk, FamilyOk, AllRooted, Lawful;
    match op
    case DoCreate(_, _) => assert e + Report(t, op) == e;
    case DoExit(p, status) => MatchesExit(t, e, p, status);
    case DoWait(p, c) => MatchesWait(t, e, p, c);
  }

  /** Over every run from boot: no process exits twice, and each wait returns the status of an
      earlier exit of a process nobody waited for before. */
  lemma ReapedOnce(ops: seq<Op>)
    ensures Lawful(Trace(Boot(), ops))
  {
    BootInv();
    TraceMatches(Boot(), [], ops);
    assert [] + Trace(Boot(), ops) == Trace(Boot(), ops);
  }
}

/** The process list as the kernel changes it in place. */
module ProcMachine {
  import opened Wrappers
  import opened Lists
  import opened Procs
  import Waits

  /** What one pass of do_waitpid comes to: reaped a child, an error, nothing for a pid it does not
      support, or going to sleep until a child exits. */
  datatype WaitResult = Reaped(pid: Pid, status: int) | NoChild | Unsupported | MustSleep

  /** How a table changes when p exits: p is a childless zombie with its status, its children have init as
      their parent, init has them behind the children it had, and nothing else changes. */
  predicate Bereaved(t: map<Pid, Proc>, r: map<Pid, Proc>, p: Pid, status: int) {
    && p in t && r.Keys == t.Keys && r[p] == Proc(t[p].uid, t[p].parent, [], true, status)
    && forall q | q in t && q != p ::
         if q in t[p].children then r[q] == t[q].(parent := Some(INIT))
         else if q == INIT then r[q] == t[q].(children := t[q].children + t[p].children)
         else r[q] == t[q]
  }

  /** How a table changes when p has waited for c: c is gone, from the table and from the list of p. */
  predicate Buried(t: map<Pid, Proc>, r: map<Pid, Proc>, p: Pid, c: Pid) {
    && p in t && p != c && r.Keys == t.Keys - {c}
    && r[p] == t[p].(children := Without(t[p].children, c))
    && forall q | q in r && q != p :: r[q] == t[q]
  }

  lemma ExitMoves(t: Table, p: Pid, status: int)
    requires Inv(t) && Enabled(t, DoExit(p, status))
    ensures Bereaved(t.procs, Cleanup(t, p, status).procs, p, status)
  {
    ChildrenIn(t, p);
    hide Inv;
  }

  class ProcTable {
    const max: nat
    var list: seq<Pid>
    var next: Pid
    var procs: map<Pid, Proc>
    var nextUid: nat
    ghost var exited: map<nat, int>
    ghost var reaped: set<nat>

    ghost function T(): Table
      reads this
    {
      Table(procs, nextUid, exited, reaped)
    }

    ghost predicate Valid()
      reads this
    {
      Inv(T()) && Enum(list, procs.Keys) && next < max
    }

    /** The first proc_create, of idle. */
    constructor (max: nat)
      requires max > 0
      ensures Valid() && T() == Boot() && this.max == max && list == [IDLE] && next == 1 % max
    {
      this.max := max;
      list, next := [IDLE], 1 % max;
      procs, nextUid := Boot().procs, 1;
      exited, reaped := map[], {};
      new;
      BootInv();
    }

    /** proc_create by process p; its first assertion needs init's pid to be used under idle only. */
    method CreateProc(p: Pid) returns (pid: Pid)
      requires Valid() && p in procs && !procs[p].dead
      requires INIT in procs || p == IDLE
      requires exists free: Pid :: free < max && free !in list
      modifies this
      ensures Valid()
      ensures FirstFree(old(list), old(next), max, pid) && next == (pid + 1) % max
      ensures list == old(list) + [pid]
      ensures Enabled(old(T()), DoCreate(p, pid)) && T() == Create(old(T()), p, pid)
      ensures p != pid && pid !in old(procs) && procs.Keys == old(procs).Keys + {pid}
      ensures procs[pid] == Proc(old(nextUid), Some(p), [], false, 0)
      ensures procs[p] == old(procs)[p].(children := old(procs)[p].children + [pid])
      ensures forall q | q in procs && q != p && q != pid :: procs[q] == old(procs)[q]
    {
      hide Inv, FirstFree, Enum;
      ghost var t := T();
      var r := GetId(list, next, max);
      pid := r.value;
      FirstFreeIs(list, next, max, pid, procs.Keys);
      next := (pid + 1) % max;
      StepInv(t, DoCreate(p, pid));
      EnumAdd(list, procs.Keys, pid);
      var parent := procs[p];
      procs := procs[p := parent.(children := parent.children + [pid])][pid := Proc(nextUid, Some(p), [], false, 0)];
      nextUid := nextUid + 1;
      list := list + [pid];
      assert procs.Keys == t.procs.Keys + {pid};
    }

    /** proc_cleanup of process p: one child after the other moves to init. */
    method CleanupProc(p: Pid, status: int)
      requires Valid() && Enabled(T(), DoExit(p, status))
      modifies this
      ensures Valid() && list == old(list) && next == old(next)
      ensures T() == Cleanup(old(T()), p, status) && Bereaved(old(procs), procs, p, status)
    {
      hide Inv, AllMoving, Cleanup, Bereaved;
      ghost var t := T();
      ExitMoves(t, p, status);
      StepInv(t, DoExit(p, status));
      assert Step(t, DoExit(p, status)) == Cleanup(t, p, status);
      var children := procs[p].children;
      procs := procs[p := procs[p].(dead := true, status := status)];
      MoveNone(t, p, status, procs);
      for i := 0 to |children|
        invariant AllMoving(t, p, status, i, procs)
        invariant list == old(list) && next == old(next) && nextUid == old(nextUid) && exited == old(exited) &&
                  reaped == old(reaped)
      {
        MoveOne(t, p, status, i, procs);
        Adopt(children[i]);
      }
      MovedAll(t, p, status, procs);
      exited := exited[procs[p].uid := status];
      procs := procs[p := procs[p].(children := [])];
    }

    /** Makes init the parent of c. */
    method Adopt(c: Pid)
      requires c in procs && INIT in procs && c != INIT
      modifies this`procs
      ensures procs == Adopted(old(procs), c)
    {
      procs := procs[c := procs[c].(parent := Some(INIT))];
      procs := procs[INIT := procs[INIT].(children := procs[INIT].children + [c])];
    }

    /** One pass of do_waitpid by process p. */
    method WaitPid(p: Pid, pid: int) returns (r: WaitResult)
      requires Valid() && p in procs && !procs[p].dead
      modifies this
      ensures Valid() && next == old(next)
      ensures r.NoChild? <==> old(procs[p].children == [] || (pid > 0 && pid !in procs[p].children))
      ensures r.Unsupported? <==> old(procs[p].children != []) && pid <= 0 && pid != -1
      ensures r.Reaped? || r.MustSleep? ==>
                Waits.FirstDead(old(T()), old(procs[p].children), pid) == if r.Reaped? then Some(r.pid) else None
      ensures r.Reaped? && pid == -1 ==>
                exists i :: 0 <= i < |old(procs[p].children)| && old(procs[p].children)[i] == r.pid &&
                            forall c | c in old(procs[p].children)[..i] :: c in old(procs) && !old(procs)[c].dead
      ensures r.MustSleep? ==> forall c | c in old(procs[p].children) && (pid == -1 || c == pid) ::
              c in old(procs) && !old(procs[c].dead)
      ensures !r.Reaped? ==> T() == old(T()) && list == old(list)
      ensures r.Reaped? ==>
        && Enabled(old(T()), DoWait(p, r.pid)) && (pid == -1 || pid == r.pid)
        && Report(old(T()), DoWait(p, r.pid)) == [Waited(old(procs)[r.pid].uid, r.status)]
        && T() == Reap(old(T()), p, r.pid) && list == Without(old(list), r.pid)
        && r.status == old(procs)[r.pid].status && Buried(old(procs), procs, p, r.pid)
    {
      hide Inv, Buried;
      var children := procs[p].children;
      ChildrenIn(T(), p);
      if children == [] {
        return NoChild;
      }
      Waits.FirstDeadIs(T(), children, pid);
      if pid > 0 {
        for i := 0 to |children|
          invariant pid !in children[..i]
        {
          if children[i] == pid {
            if !procs[children[i]].dead {
              return MustSleep;
            }
            r := Dispose(p, children[i]);
            return;
          }
        }
        return NoChild;
      } else if pid == -1 {
        for i := 0 to |children|
          invariant forall j | 0 <= j < i :: !procs[children[j]].dead
          invariant Waits.FirstDead(T(), children, pid) == Waits.FirstDead(T(), children[i..], pid)
        {
          if procs[children[i]].dead {
            r := Dispose(p, children[i]);
            return;
          }
        }
        return MustSleep;
      }
      return Unsupported;
    }

    /** Unlinks the zombie c and hands out its status. */
    method Dispose(p: Pid, c: Pid) returns (r: WaitResult)
      requires Valid() && Enabled(T(), DoWait(p, c))
      modifies this
      ensures Valid() && next == old(next) && list == Without(old(list), c)
      ensures T() == Reap(old(T()), p, c) && r == Reaped(c, old(procs)[c].status) && Buried(old(procs), procs, p, c)
    {
      hide Inv;
      ghost var t := T();
      StepInv(t, DoWait(p, c));
      EnumWithout(list, procs.Keys, c);
      NotOwnChild(t, p, c);
      r := Reaped(c, procs[c].status);
      reaped := reaped + {procs[c].uid};
      list := Without(list, c);
      procs := procs[p := procs[p].(children := Without(procs[p].children, c))] - {c};
      assert procs.Keys == t.procs.Keys - {c};
    }
  }

  lemma FirstFreeIs(used: seq<Pid>, next: Pid, max: nat, pid: Pid, all: set<Pid>)
    requires FirstFree(used, next, max, pid) && next < max && Enum(used, all)
    ensures pid < max && pid !in all && (pid + 1) % max < max
  {
  }

  /** The children of p are processes, and init is not among them when p is about to exit. */
  lemma ChildrenIn(t: Table, p: Pid)
    requires Inv(t) && p in t.procs
    ensures forall c | c in t.procs[p].children :: c in t.procs && t.procs[c].parent == Some(p) && c != p
    ensures p != IDLE ==> INIT !in t.procs[p].children
    ensures NoDup(t.procs[p].children)
    ensures forall c | c in t.procs && t.procs[c].parent == Some(p) :: c in t.procs[p].children
  {
    hide AllRooted, HistoriesOk;
    assert FamilyAt(t, p);
    assert forall c | c in t.procs :: ProcOk(t, c, t.procs[c]);
  }

  lemma NotOwnChild(t: Table, p: Pid, c: Pid)
    requires Inv(t) && p in t.procs && c in t.procs[p].children
    ensures p != c
  {
    hide Inv;
    ChildrenIn(t, p);
  }

  /** Process q after the first i children of p moved to init. */
  function Moving(t: Table, p: Pid, status: int, i: nat, q: Pid): Proc
    requires p in t.procs && q in t.procs && i <= |t.procs[p].children|
  {
    var x := t.procs[q];
    if q == p then x.(dead := true, status := status)
    else if q in t.procs[p].children[..i] then x.(parent := Some(INIT))
    else if q == INIT then x.(children := x.children + t.procs[p].children[..i])
    else x
  }

  function Adopted(procs: map<Pid, Proc>, c: Pid): map<Pid, Proc>
    requires c in procs && INIT in procs && c != INIT
  {
    var init := procs[INIT];
    procs[c := procs[c].(parent := Some(INIT))][INIT := init.(children := init.children + [c])]
  }

  ghost predicate AllMoving(t: Table, p: Pid, status: int, i: nat, procs: map<Pid, Proc>) {
    && p in t.procs && procs.Keys == t.procs.Keys && i <= |t.procs[p].children|
    && forall q | q in procs :: procs[q] == Moving(t, p, status, i, q)
  }

  lemma MoveNone(t: Table, p: Pid, status: int, procs: map<Pid, Proc>)
    requires p in t.procs && procs == t.procs[p := t.procs[p].(dead := true, status := status)]
    ensures AllMoving(t, p, status, 0, procs)
  {
    forall q | q in procs
      ensures procs[q] == Moving(t, p, status, 0, q)
    {
      assert t.procs[q].children + t.procs[p].children[..0] == t.procs[q].children;
    }
  }

  lemma MoveOne(t: Table, p: Pid, status: int, i: nat, procs: map<Pid, Proc>)
    requires Inv(t) && Enabled(t, DoExit(p, status)) && i < |t.procs[p].children| && AllMoving(t, p, status, i, procs)
    ensures var c := t.procs[p].children[i];
            c in procs && INIT in procs && c != INIT && AllMoving(t, p, status, i + 1, Adopted(procs, c))
  {
    hide Inv, Moving;
    ChildrenIn(t, p);
    var c := t.procs[p].children[i];
    forall q | q in procs
      ensures Adopted(procs, c)[q] == Moving(t, p, status, i + 1, q)
    {
      MoveOneAt(t, p, status, i, q);
    }
  }

  lemma MoveOneAt(t: Table, p: Pid, status: int, i: nat, q: Pid)
    requires Inv(t) && Enabled(t, DoExit(p, status)) && i < |t.procs[p].children| && q in t.procs
    ensures var c := t.procs[p].children[i];
            var x := Moving(t, p, status, i, q);
            Moving(t, p, status, i + 1, q) ==
            if q == c then x.(parent := Some(INIT)) else if q == INIT then x.(children := x.children + [c]) else x
  {
    hide Inv;
    ChildrenIn(t, p);
    var s := t.procs[p].children;
    assert s[..i + 1] == s[..i] + [s[i]];
    assert s[i] !in s[..i];
    assert INIT !in s[..i + 1] && p !in s[..i + 1];
    assert t.procs[q].children + s[..i] + [s[i]] == t.procs[q].children + s[..i + 1];
  }

  /** With all children moved, all that is left is to empty the list of p. */
  lemma MovedAll(t: Table, p: Pid, status: int, procs: map<Pid, Proc>)
    requires Inv(t) && Enabled(t, DoExit(p, status)) && AllMoving(t, p, status, |t.procs[p].children|, procs)
    ensures p in procs && procs[p].uid == t.procs[p].uid
    ensures Cleanup(t, p, status) ==
            Table(procs[p := procs[p].(children := [])], t.nextUid, t.exited[procs[p].uid := status], t.reaped)
    ensures Cleanup(t, p, status).procs.Keys == t.procs.Keys
  {
    hide Inv;
    ChildrenIn(t, p);
    var s := t.procs[p].children;
    assert s[..|s|] == s;
    assert INIT !in s;
    assert Cleanup(t, p, status).procs == procs[p := procs[p].(children := [])];
  }
}
