/** Who sleeps in do_waitpid, and what wakes them (kernel/proc/proc.c). A process that exits wakes its
    parent. Its children, zombies among them, go to init, and nobody tells init. */
module Waits {
  import opened Wrappers
  import opened Lists
  import opened Procs

  /** A process in do_waitpid for pid, which is -1 for any child: on its wait queue, or woken and about to
      look again. */
  datatype Wait = Asleep(pid: int) | Woken(pid: int)

  /** adopted is the history of processes that were dead when init got them. */
  datatype World = World(t: Table, waits: map<Pid, Wait>, adopted: set<nat>)

  datatype Act = Create(p: Pid, pid: Pid) | Exit(p: Pid, status: int) | Call(p: Pid, want: int) | Resume(p: Pid)

  predicate Possible(w: World, a: Act) {
    match a
    case Create(p, pid) => p !in w.waits && Enabled(w.t, DoCreate(p, pid))
    case Exit(p, status) => p !in w.waits && Enabled(w.t, DoExit(p, status))
    case Call(p, _) => p !in w.waits && p in w.t.procs && !w.t.procs[p].dead
    case Resume(p) => p in w.waits && w.waits[p].Woken? && p in w.t.procs
  }

  predicate Wants(pid: int, c: Pid) {
    pid == -1 || c == pid
  }

  predicate Dead(t: Table, c: Pid) {
    c in t.procs && t.procs[c].dead
  }

  /** The first of the children that is dead and asked for. */
  function FirstDead(t: Table, cs: seq<Pid>, pid: int): Option<Pid> {
    if cs == [] then None
    else if Dead(t, cs[0]) && Wants(pid, cs[0]) then Some(cs[0])
    else FirstDead(t, cs[1..], pid)
  }

  /** There is a child to wait for. */
  predicate Waitable(t: Table, p: Pid, pid: int)
    requires p in t.procs
  {
    if pid == -1 then t.procs[p].children != [] else pid > 0 && pid in t.procs[p].children
  }

  /** do_waitpid, from its start or after being woken: return, with or without a child, or sleep. */
  function Look(w: World, p: Pid, pid: int): World
    requires p in w.t.procs
  {
    if !Waitable(w.t, p, pid) then w.(waits := w.waits - {p})
    else
      match FirstDead(w.t, w.t.procs[p].children, pid)
      case None => w.(waits := w.waits[p := Asleep(pid)])
      case Some(c) => if c in w.t.procs then w.(t := Reap(w.t, p, c), waits := w.waits - {p}) else w
  }

  function Wake(waits: map<Pid, Wait>, q: Option<Pid>): map<Pid, Wait> {
    if q.Some? && q.value in waits then waits[q.value := Woken(waits[q.value].pid)] else waits
  }

  function DeadAmong(t: Table, cs: seq<Pid>): set<nat> {
    set c | c in cs && Dead(t, c) :: t.procs[c].uid
  }

  function Do(w: World, a: Act): World
    requires Possible(w, a)
  {
    match a
    case Create(p, pid) => w.(t := Step(w.t, DoCreate(p, pid)))
    case Exit(p, status) =>
      World(Step(w.t, DoExit(p, status)), Wake(w.waits, w.t.procs[p].parent),
            w.adopted + DeadAmong(w.t, w.t.procs[p].children))
    case Call(p, want) => Look(w, p, want)
    case Resume(p) => Look(w, p, w.waits[p].pid)
  }

  // ----- The invariant -----

  /** A child that a process asleep for pid could reap. */
  ghost predicate Ready(t: Table, p: Pid, pid: int, c: Pid)
    requires p in t.procs
  {
    c in t.procs[p].children && Dead(t, c) && Wants(pid, c)
  }

  /** A process sleeps although it has a child to reap. */
  ghost predicate Stuck(w: World, p: Pid) {
    p in w.waits && w.waits[p].Asleep? && p in w.t.procs && exists c :: Ready(w.t, p, w.waits[p].pid, c)
  }

  ghost predicate HasDead(t: Table, p: Pid)
    requires p in t.procs
  {
    exists c :: c in t.procs[p].children && Dead(t, c)
  }

  ghost predicate WaitOk(w: World, p: Pid, x: Wait) {
    && p in w.t.procs && !w.t.procs[p].dead && Waitable(w.t, p, x.pid)
    && (x.Asleep? ==> forall c | Ready(w.t, p, x.pid, c) :: x.pid == -1 && p == INIT && w.t.procs[c].uid in w.adopted)
    && (x.Woken? && x.pid == -1 ==> HasDead(w.t, p))
  }

  ghost predicate WorldOk(w: World) {
    Inv(w.t) && forall p | p in w.waits :: WaitOk(w, p, w.waits[p])
  }

  lemma {:induction false} FirstDeadIs(t: Table, cs: seq<Pid>, pid: int)
    ensures match FirstDead(t, cs, pid)
            case None => forall c | c in cs :: !(Dead(t, c) && Wants(pid, c))
            case Some(c) => c in cs && Dead(t, c) && Wants(pid, c)
  {
    if cs != [] {
      FirstDeadIs(t, cs[1..], pid);
      assert cs == [cs[0]] + cs[1..];
    }
  }

  // ----- Every step keeps it -----

  /** The process p, which does not act, has the children it had, and they are as they were. */
  ghost predicate SameChildren(t: Table, r: Table, p: Pid) {
    && p in t.procs && p in r.procs && r.procs[p].dead == t.procs[p].dead
    && r.procs[p].children == t.procs[p].children
    && forall c | c in t.procs[p].children :: SameChild(t, r, c)
  }

  predicate SameChild(t: Table, r: Table, c: Pid) {
    && (c in t.procs <==> c in r.procs)
    && (c in t.procs ==> r.procs[c].dead == t.procs[c].dead && r.procs[c].uid == t.procs[c].uid)
  }

  lemma SameWait(w: World, r: World, p: Pid, x: Wait)
    requires WaitOk(w, p, x) && SameChildren(w.t, r.t, p) && w.adopted <= r.adopted
    ensures WaitOk(r, p, x)
  {
    assert forall c | c in w.t.procs[p].children :: SameChild(w.t, r.t, c);
    if x.Woken? && x.pid == -1 {
      var c :| c in w.t.procs[p].children && Dead(w.t, c);
      assert c in r.t.procs[p].children && Dead(r.t, c);
    }
    forall c | x.Asleep? && Ready(r.t, p, x.pid, c)
      ensures x.pid == -1 && p == INIT && r.t.procs[c].uid in r.adopted
    {
      assert Ready(w.t, p, x.pid, c);
    }
  }

  lemma CreateSame(t: Table, p: Pid, pid: Pid, q: Pid)
    requires Inv(t) && Enabled(t, DoCreate(p, pid)) && q in t.procs && q != p
    ensures SameChildren(t, Step(t, DoCreate(p, pid)), q)
  {
    assert FamilyAt(t, q);
    hide Inv;
  }

  lemma ReapEntry(t: Table, p: Pid, c: Pid, q: Pid)
    requires Enabled(t, DoWait(p, c)) && q in t.procs && q != p && q != c && c !in t.procs[q].children
    ensures SameChildren(t, Step(t, DoWait(p, c)), q)
  {
  }

  lemma ReapSame(t: Table, p: Pid, c: Pid, q: Pid)
    requires Inv(t) && Enabled(t, DoWait(p, c)) && q in t.procs && q != p && !t.procs[q].dead
    ensures SameChildren(t, Step(t, DoWait(p, c)), q)
  {
    assert c !in t.procs[q].children by { assert FamilyAt(t, p) && FamilyAt(t, q); }
    hide Inv, Step;
    ReapEntry(t, p, c, q);
  }

  lemma ExitOther(t: Table, p: Pid, status: int, c: Pid)
    requires Enabled(t, DoExit(p, status)) && c != p
    ensures SameChild(t, Step(t, DoExit(p, status)), c)
  {
    if c in t.procs { assert Step(t, DoExit(p, status)).procs[c] == Moved(t, p, status, c); }
  }

  /** The children of q after p exits: p is one of them still, if it was, and init has those of p besides. */
  lemma ExitChildren(t: Table, p: Pid, status: int, q: Pid)
    requires Inv(t) && Enabled(t, DoExit(p, status)) && q in t.procs && q != p
    ensures var r := Step(t, DoExit(p, status));
            && q in r.procs && r.procs[q].dead == t.procs[q].dead && Dead(r, p)
            && r.procs[q].children == t.procs[q].children + (if q == INIT then t.procs[p].children else [])
            && (t.procs[p].parent == Some(q) <==> p in t.procs[q].children)
            && (q == INIT ==> p !in t.procs[p].children)
  {
    assert FamilyAt(t, q) && FamilyAt(t, p) && ProcOk(t, p, t.procs[p]) && ProcOk(t, q, t.procs[q]);
    hide Inv, Step;
    ExitEntry(t, p, status, q);
  }

  lemma ExitEntry(t: Table, p: Pid, status: int, q: Pid)
    requires Enabled(t, DoExit(p, status)) && q in t.procs && q != p && (q == INIT ==> t.procs[q].parent == Some(IDLE))
    ensures var r := Step(t, DoExit(p, status));
            && q in r.procs && r.procs[q].dead == t.procs[q].dead && Dead(r, p)
            && r.procs[q].children == t.procs[q].children + (if q == INIT then t.procs[p].children else [])
  {
    var r := Step(t, DoExit(p, status));
    assert r.procs[q] == Moved(t, p, status, q) && r.procs[p] == Moved(t, p, status, p);
  }

  /** Who is neither the parent of the process that exits nor its heir. */
  lemma ExitSame(t: Table, p: Pid, status: int, q: Pid)
    requires Inv(t) && Enabled(t, DoExit(p, status)) && q in t.procs && q != p && q != INIT
    requires t.procs[p].parent != Some(q)
    ensures SameChildren(t, Step(t, DoExit(p, status)), q)
  {
    hide Inv, Step, Enabled;
    ExitChildren(t, p, status, q);
    forall c | c in t.procs[q].children
      ensures SameChild(t, Step(t, DoExit(p, status)), c)
    {
      ExitOther(t, p, status, c);
    }
  }

  lemma WokenOk(w: World, p: Pid, status: int, q: Pid)
    requires Inv(w.t) && Possible(w, Exit(p, status)) && q != p && w.t.procs[p].parent == Some(q)
    requires q in w.waits && WaitOk(w, q, w.waits[q])
    ensures WaitOk(Do(w, Exit(p, status)), q, Woken(w.waits[q].pid))
  {
    ExitChildren(w.t, p, status, q);
    hide Inv, Step;
    var r := Do(w, Exit(p, status));
    assert p in r.t.procs[q].children && Dead(r.t, p);
    assert HasDead(r.t, q);
  }

  lemma HeirOk(w: World, p: Pid, status: int)
    requires Inv(w.t) && Possible(w, Exit(p, status)) && p != INIT && w.t.procs[p].parent != Some(INIT)
    requires INIT in w.waits && WaitOk(w, INIT, w.waits[INIT])
    ensures WaitOk(Do(w, Exit(p, status)), INIT, w.waits[INIT])
  {
    var x, r := w.waits[INIT], Do(w, Exit(p, status));
    ExitChildren(w.t, p, status, INIT);
    hide Inv, Step;
    if x.Woken? && x.pid == -1 {
      var c :| c in w.t.procs[INIT].children && Dead(w.t, c);
      ExitOther(w.t, p, status, c);
      assert c in r.t.procs[INIT].children && Dead(r.t, c);
    }
    forall c | x.Asleep? && Ready(r.t, INIT, x.pid, c)
      ensures x.pid == -1 && r.t.procs[c].uid in r.adopted
    {
      AdoptedReady(w, p, status, c);
    }
  }

  lemma AdoptedReady(w: World, p: Pid, status: int, c: Pid)
    requires Inv(w.t) && Possible(w, Exit(p, status)) && p != INIT && w.t.procs[p].parent != Some(INIT)
    requires INIT in w.waits && WaitOk(w, INIT, w.waits[INIT]) && w.waits[INIT].Asleep?
    requires INIT in Do(w, Exit(p, status)).t.procs && Ready(Do(w, Exit(p, status)).t, INIT, w.waits[INIT].pid, c)
    ensures w.waits[INIT].pid == -1 && Do(w, Exit(p, status)).t.procs[c].uid in Do(w, Exit(p, status)).adopted
  {
    ExitChildren(w.t, p, status, INIT);
    ExitOther(w.t, p, status, c);
    hide Inv, Step;
    if c in w.t.procs[INIT].children {
      assert Ready(w.t, INIT, w.waits[INIT].pid, c);
    } else {
      assert w.t.procs[c].uid in DeadAmong(w.t, w.t.procs[p].children);
    }
  }

  lemma ExitOk(w: World, p: Pid, status: int, q: Pid)
    requires WorldOk(w) && Possible(w, Exit(p, status)) && q in Do(w, Exit(p, status)).waits
    ensures WaitOk(Do(w, Exit(p, status)), q, Do(w, Exit(p, status)).waits[q])
  {
    var r := Do(w, Exit(p, status));
    assert q in w.waits && WaitOk(w, q, w.waits[q]) && q != p;
    hide Inv, WaitOk;
    if w.t.procs[p].parent == Some(q) {
      WokenOk(w, p, status, q);
    } else if q == INIT {
      HeirOk(w, p, status);
    } else {
      QIsThere(w, q);
      ExitSame(w.t, p, status, q);
      SameWait(w, r, q, w.waits[q]);
    }
  }

  lemma QIsThere(w: World, q: Pid)
    requires q in w.waits && WaitOk(w, q, w.waits[q])
    ensures q in w.t.procs && !w.t.procs[q].dead
  {
  }

  /** Reaping a child is nothing to others that wait. */
  lemma LookOther(w: World, p: Pid, pid: int, q: Pid)
    requires WorldOk(w) && p in w.t.procs && !w.t.procs[p].dead && q != p && q in Look(w, p, pid).waits
    ensures var r := Look(w, p, pid);
            q in w.waits && r.waits[q] == w.waits[q] && SameChildren(w.t, r.t, q) && r.adopted == w.adopted
  {
    FirstDeadIs(w.t, w.t.procs[p].children, pid);
    var d := FirstDead(w.t, w.t.procs[p].children, pid);
    assert q in w.waits && WaitOk(w, q, w.waits[q]);
    hide Inv;
    if Waitable(w.t, p, pid) && d.Some? { ReapSame(w.t, p, d.value, q); }
    hide Step, SameChildren;
    if !(Waitable(w.t, p, pid) && d.Some?) { SameItself(w.t, q); }
  }

  lemma SameItself(t: Table, q: Pid)
    requires q in t.procs
    ensures SameChildren(t, t, q)
  {
  }

  lemma LookOk(w: World, p: Pid, pid: int, q: Pid)
    requires WorldOk(w) && p in w.t.procs && !w.t.procs[p].dead && q in Look(w, p, pid).waits
    ensures WaitOk(Look(w, p, pid), q, Look(w, p, pid).waits[q])
  {
    if q == p {
      FirstDeadIs(w.t, w.t.procs[p].children, pid);
      hide Inv;
    } else {
      LookOther(w, p, pid, q);
      assert WaitOk(w, q, w.waits[q]);
      hide Inv, WaitOk, Look;
      SameWait(w, Look(w, p, pid), q, w.waits[q]);
    }
  }

  lemma CreateOk(w: World, p: Pid, pid: Pid, q: Pid)
    requires WorldOk(w) && Possible(w, Create(p, pid)) && q in Do(w, Create(p, pid)).waits
    ensures WaitOk(Do(w, Create(p, pid)), q, Do(w, Create(p, pid)).waits[q])
  {
    assert WaitOk(w, q, w.waits[q]);
    CreateSame(w.t, p, pid, q);
    SameWait(w, Do(w, Create(p, pid)), q, w.waits[q]);
  }

  /** The table goes through a step of its own, or stays. */
  lemma TableStep(w: World, a: Act)
    requires Inv(w.t) && Possible(w, a) && (a.Resume? ==> !w.t.procs[a.p].dead)
    ensures Inv(Do(w, a).t)
    ensures Do(w, a).t == w.t || exists op :: Enabled(w.t, op) && Do(w, a).t == Step(w.t, op)
  {
    match a
    case Create(p, pid) => StepInv(w.t, DoCreate(p, pid));
    case Exit(p, status) => StepInv(w.t, DoExit(p, status));
    case Call(p, want) => LookTable(w, p, want);
    case Resume(p) => LookTable(w, p, w.waits[p].pid);
  }

  lemma LookTable(w: World, p: Pid, pid: int)
    requires Inv(w.t) && p in w.t.procs && !w.t.procs[p].dead
    ensures Inv(Look(w, p, pid).t)
    ensures Look(w, p, pid).t == w.t || exists op :: Enabled(w.t, op) && Look(w, p, pid).t == Step(w.t, op)
  {
    FirstDeadIs(w.t, w.t.procs[p].children, pid);
    var d := FirstDead(w.t, w.t.procs[p].children, pid);
    if Waitable(w.t, p, pid) && d.Some? {
      assert Enabled(w.t, DoWait(p, d.value));
      StepInv(w.t, DoWait(p, d.value));
    }
  }

  lemma DoOk(w: World, a: Act)
    requires WorldOk(w) && Possible(w, a)
    ensures WorldOk(Do(w, a))
  {
    if a.Resume? { assert WaitOk(w, a.p, w.waits[a.p]); }
    TableStep(w, a);
    hide Inv, WaitOk, Step, Enabled, Look;
    forall q | q in Do(w, a).waits
      ensures WaitOk(Do(w, a), q, Do(w, a).waits[q])
    {
      match a
      case Create(p, pid) => CreateOk(w, p, pid, q);
      case Exit(p, status) => ExitOk(w, p, status, q);
      case Call(p, want) => LookOk(w, p, want, q);
      case Resume(p) => LookOk(w, p, w.waits[p].pid, q);
    }
  }

  // ----- Runs -----

  function Start(): World {
    World(Boot(), map[], {})
  }

  function RunActs(w: World, acts: seq<Act>): World {
    if acts == [] then w
    else
      var r := RunActs(w, acts[..|acts| - 1]);
      if Possible(r, acts[|acts| - 1]) then Do(r, acts[|acts| - 1]) else r
  }

  lemma {:induction false} RunOk(acts: seq<Act>)
    ensures WorldOk(RunActs(Start(), acts))
  {
    if acts == [] {
      BootInv();
    } else {
      RunOk(acts[..|acts| - 1]);
      var r := RunActs(Start(), acts[..|acts| - 1]);
      hide WorldOk, Do;
      if Possible(r, acts[|acts| - 1]) { DoOk(r, acts[|acts| - 1]); }
    }
  }

  /** In every run a process asleep in do_waitpid has a dead child that it waits for only if it is init, waits
      for any child, and the child was dead when init got it. */
  lemma OnlyAdoptedMissed(acts: seq<Act>, p: Pid, c: Pid)
    requires var w := RunActs(Start(), acts);
             p in w.waits && w.waits[p].Asleep? && p in w.t.procs && Ready(w.t, p, w.waits[p].pid, c)
    ensures var w := RunActs(Start(), acts);
            p == INIT && w.waits[p].pid == -1 && w.t.procs[c].uid in w.adopted
  {
    RunOk(acts);
    var w := RunActs(Start(), acts);
    assert WaitOk(w, p, w.waits[p]);
  }

  /** In every run a process that was woken in a wait for any child finds one: its call returns. */
  lemma WokenReaps(acts: seq<Act>, p: Pid)
    requires var w := RunActs(Start(), acts); p in w.waits && w.waits[p] == Woken(-1)
    ensures var w := RunActs(Start(), acts);
            && Possible(w, Resume(p)) && p !in Do(w, Resume(p)).waits
            && exists c :: Enabled(w.t, DoWait(p, c)) && Do(w, Resume(p)).t == Reap(w.t, p, c)
  {
    RunOk(acts);
    var w := RunActs(Start(), acts);
    assert WaitOk(w, p, w.waits[p]);
    hide Inv, RunActs;
    FirstDeadIs(w.t, w.t.procs[p].children, -1);
    var d := FirstDead(w.t, w.t.procs[p].children, -1);
    assert d.Some? by {
      var c :| c in w.t.procs[p].children && Dead(w.t, c);
      assert Wants(-1, c);
    }
    assert Enabled(w.t, DoWait(p, d.value));
  }

  // ----- When a wake-up is missed -----

  /** A process exits whose parent is not init, leaving init, asleep for any child, a zombie. */
  ghost predicate LeavesZombie(w: World, a: Act)
    requires Possible(w, a)
  {
    && a.Exit? && INIT in w.waits && w.waits[INIT] == Asleep(-1)
    && w.t.procs[a.p].parent != Some(INIT) && HasDead(w.t, a.p)
  }

  lemma SameStuck(w: World, r: World, q: Pid)
    requires SameChildren(w.t, r.t, q) && q in w.waits && q in r.waits && r.waits[q] == w.waits[q] && Stuck(r, q)
    ensures Stuck(w, q)
  {
    var c :| Ready(r.t, q, r.waits[q].pid, c);
    assert SameChild(w.t, r.t, c);
    assert Ready(w.t, q, w.waits[q].pid, c);
  }

  lemma HeirStuck(w: World, a: Act)
    requires WorldOk(w) && Possible(w, a) && a.Exit? && Stuck(Do(w, a), INIT) && !LeavesZombie(w, a)
    ensures Stuck(w, INIT)
  {
    hide Inv, Step;
    var r := Do(w, a);
    var c :| Ready(r.t, INIT, r.waits[INIT].pid, c);
    assert INIT in w.waits && WaitOk(w, INIT, w.waits[INIT]) && w.waits[INIT] == r.waits[INIT];
    assert w.t.procs[a.p].parent != Some(INIT);
    ExitChildren(w.t, a.p, a.status, INIT);
    ExitOther(w.t, a.p, a.status, c);
    assert c in w.t.procs[INIT].children;
    assert Ready(w.t, INIT, w.waits[INIT].pid, c);
  }

  lemma LookStuck(w: World, p: Pid, pid: int, q: Pid)
    requires WorldOk(w) && p in w.t.procs && !w.t.procs[p].dead && Stuck(Look(w, p, pid), q)
    ensures Stuck(w, q)
  {
    hide Inv;
    if q == p {
      FirstDeadIs(w.t, w.t.procs[p].children, pid);
    } else {
      LookOther(w, p, pid, q);
      hide Look;
      SameStuck(w, Look(w, p, pid), q);
    }
  }

  lemma StuckBefore(w: World, a: Act, q: Pid)
    requires WorldOk(w) && Possible(w, a) && Stuck(Do(w, a), q) && !LeavesZombie(w, a)
    ensures Stuck(w, q)
  {
    if a.Resume? { assert WaitOk(w, a.p, w.waits[a.p]); }
    match a
    case Create(p, pid) =>
      CreateSame(w.t, p, pid, q) by { assert WaitOk(w, q, w.waits[q]); }
      SameStuck(w, Do(w, a), q);
    case Exit(p, status) =>
      if q == INIT {
        HeirStuck(w, a);
      } else {
        assert WaitOk(w, q, w.waits[q]);
        ExitSame(w.t, p, status, q);
        SameStuck(w, Do(w, a), q);
      }
    case Call(p, want) => LookStuck(w, p, want, q);
    case Resume(p) => LookStuck(w, p, w.waits[p].pid, q);
  }

  lemma ZombieStuck(w: World, a: Act)
    requires WorldOk(w) && Possible(w, a) && LeavesZombie(w, a)
    ensures Stuck(Do(w, a), INIT)
  {
    hide Inv, Step;
    assert INIT in w.t.procs && a.p != INIT by { assert WaitOk(w, INIT, w.waits[INIT]); }
    var c :| c in w.t.procs[a.p].children && Dead(w.t, c);
    ExitChildren(w.t, a.p, a.status, INIT);
    ChildIsOther(w.t, a.p, c);
    hide WorldOk;
    ExitOther(w.t, a.p, a.status, c);
    var r := Do(w, a);
    assert r.waits[INIT] == w.waits[INIT];
    assert Ready(r.t, INIT, r.waits[INIT].pid, c);
  }

  lemma ChildIsOther(t: Table, p: Pid, c: Pid)
    requires Inv(t) && p in t.procs && c in t.procs[p].children
    ensures c != p
  {
    assert FamilyAt(t, p) && ProcOk(t, c, t.procs[c]);
  }

  /** A step after which somebody sleeps who has a child to reap, while nobody did before, is exactly the exit
      of a process that is no child of init and leaves it a zombie while it sleeps for any child. */
  lemma MissedExactly(w: World, a: Act)
    requires WorldOk(w) && Possible(w, a) && forall q :: !Stuck(w, q)
    ensures (exists q :: Stuck(Do(w, a), q)) <==> LeavesZombie(w, a)
  {
    hide WorldOk, Stuck, Do, LeavesZombie;
    if LeavesZombie(w, a) {
      ZombieStuck(w, a);
    } else {
      forall q
        ensures !Stuck(Do(w, a), q)
      {
        if Stuck(Do(w, a), q) { StuckBefore(w, a, q); }
      }
    }
  }

  // ----- It happens -----

  /** Init has a child 2, that has 3, and that has 4; 4 exits, init waits, 3 exits. */
  function ZombieActs(): seq<Act> {
    [Create(0, 1), Create(1, 2), Create(2, 3), Create(3, 4), Exit(4, 0), Call(1, -1), Exit(3, 0)]
  }

  function Zombie0(): World {
    World(Table(map[0 := Proc(0, None, [], false, 0)],
                1, map[], {}), map[], {})
  }

  function Zombie1(): World {
    World(Table(map[0 := Proc(0, None, [1], false, 0),
                    1 := Proc(1, Some(0), [], false, 0)],
                2, map[], {}), map[], {})
  }

  function Zombie2(): World {
    World(Table(map[0 := Proc(0, None, [1], false, 0),
                    1 := Proc(1, Some(0), [2], false, 0),
                    2 := Proc(2, Some(1), [], false, 0)],
                3, map[], {}), map[], {})
  }

  function Zombie3(): World {
    World(Table(map[0 := Proc(0, None, [1], false, 0),
                    1 := Proc(1, Some(0), [2], false, 0),
                    2 := Proc(2, Some(1), [3], false, 0),
                    3 := Proc(3, Some(2), [], false, 0)],
                4, map[], {}), map[], {})
  }

  function Zombie4(): World {
    World(Table(map[0 := Proc(0, None, [1], false, 0),
                    1 := Proc(1, Some(0), [2], false, 0),
                    2 := Proc(2, Some(1), [3], false, 0),
                    3 := Proc(3, Some(2), [4], false, 0),
                    4 := Proc(4, Some(3), [], false, 0)],
                5, map[], {}), map[], {})
  }

  function Zombie5(): World {
    World(Table(map[0 := Proc(0, None, [1], false, 0),
                    1 := Proc(1, Some(0), [2], false, 0),
                    2 := Proc(2, Some(1), [3], false, 0),
                    3 := Proc(3, Some(2), [4], false, 0),
                    4 := Proc(4, Some(3), [], true, 0)],
                5, map[4 := 0], {}), map[], {})
  }

  function Zombie6(): World {
    World(Table(map[0 := Proc(0, None, [1], false, 0),
                    1 := Proc(1, Some(0), [2], false, 0),
                    2 := Proc(2, Some(1), [3], false, 0),
                    3 := Proc(3, Some(2), [4], false, 0),
                    4 := Proc(4, Some(3), [], true, 0)],
                5, map[4 := 0], {}), map[1 := Asleep(-1)], {})
  }

  function Zombie7(): World {
    World(Table(map[0 := Proc(0, None, [1], false, 0),
                    1 := Proc(1, Some(0), [2, 4], false, 0),
                    2 := Proc(2, Some(1), [3], false, 0),
                    3 := Proc(3, Some(2), [], true, 0),
                    4 := Proc(4, Some(1), [], true, 0)],
                5, map[4 := 0, 3 := 0], {}), map[1 := Asleep(-1)], {4})
  }

  lemma ZombieStep1()
    ensures Possible(Zombie0(), Create(0, 1)) && Do(Zombie0(), Create(0, 1)) == Zombie1()
  {
    assert [] + [1] == [1];
    assert Do(Zombie0(), Create(0, 1)).t.procs == Zombie1().t.procs;
  }

  lemma ZombieStep2()
    ensures Possible(Zombie1(), Create(1, 2)) && Do(Zombie1(), Create(1, 2)) == Zombie2()
  {
    assert [] + [2] == [2];
    assert Do(Zombie1(), Create(1, 2)).t.procs == Zombie2().t.procs;
  }

  lemma ZombieStep3()
    ensures Possible(Zombie2(), Create(2, 3)) && Do(Zombie2(), Create(2, 3)) == Zombie3()
  {
    assert [] + [3] == [3];
    assert Do(Zombie2(), Create(2, 3)).t.procs == Zombie3().t.procs;
  }

  lemma ZombieStep4()
    ensures Possible(Zombie3(), Create(3, 4)) && Do(Zombie3(), Create(3, 4)) == Zombie4()
  {
    assert [] + [4] == [4];
    assert Do(Zombie3(), Create(3, 4)).t.procs == Zombie4().t.procs;
  }

  lemma ZombieStep5()
    ensures Possible(Zombie4(), Exit(4, 0)) && Do(Zombie4(), Exit(4, 0)) == Zombie5()
  {
    assert DeadAmong(Zombie4().t, []) == {} && Zombie4().t.procs[1].children + [] == [2];
    assert forall q | q in Zombie4().t.procs :: Moved(Zombie4().t, 4, 0, q) == Zombie5().t.procs[q];
    assert Do(Zombie4(), Exit(4, 0)).t.procs == Zombie5().t.procs;
  }

  lemma ZombieStep6()
    ensures Possible(Zombie5(), Call(1, -1)) && Do(Zombie5(), Call(1, -1)) == Zombie6()
  {
  }

  lemma ZombieStep7()
    ensures Possible(Zombie6(), Exit(3, 0)) && Do(Zombie6(), Exit(3, 0)) == Zombie7()
  {
    assert [2] + [4] == [2, 4];
    assert DeadAmong(Zombie6().t, [4]) == {4} by {
      assert 4 in [4] && Dead(Zombie6().t, 4) && Zombie6().t.procs[4].uid == 4;
    }
    assert Do(Zombie6(), Exit(3, 0)).t.procs == Zombie7().t.procs;
  }

  function ZombieAt(n: nat): World
    requires n <= 7
  {
    [Zombie0(), Zombie1(), Zombie2(), Zombie3(), Zombie4(), Zombie5(), Zombie6(), Zombie7()][n]
  }

  lemma {:induction false} ZombieRuns(n: nat)
    requires n <= 7
    ensures RunActs(Start(), ZombieActs()[..n]) == ZombieAt(n)
  {
    if n == 0 {
      assert ZombieActs()[..0] == [];
    } else {
      ZombieRuns(n - 1);
      ZombieNext(n - 1);
      assert ZombieActs()[..n][..n - 1] == ZombieActs()[..n - 1];
      hide Do, Possible, ZombieAt;
    }
  }

  lemma ZombieNext(n: nat)
    requires n < 7
    ensures Possible(ZombieAt(n), ZombieActs()[n]) && Do(ZombieAt(n), ZombieActs()[n]) == ZombieAt(n + 1)
  {
    hide Do, Possible, Zombie0, Zombie1, Zombie2, Zombie3, Zombie4, Zombie5, Zombie6, Zombie7;
    match n
    case 0 => ZombieStep1();
    case 1 => ZombieStep2();
    case 2 => ZombieStep3();
    case 3 => ZombieStep4();
    case 4 => ZombieStep5();
    case 5 => ZombieStep6();
    case 6 => ZombieStep7();
  }

  /** A run from boot after which init sleeps in a wait for any child and has the zombie 4. */
  lemma MissedExample()
    ensures var w := RunActs(Start(), ZombieActs());
            && Stuck(w, INIT) && w.waits[INIT] == Asleep(-1) && Ready(w.t, INIT, -1, 4)
  {
    ZombieRuns(7);
    assert ZombieActs()[..7] == ZombieActs();
    hide RunActs;
    assert Ready(Zombie7().t, INIT, -1, 4);
  }
}
