/** Every run of the kernel refines a run of the flat memory. */
module Runs {
  import opened Wrappers
  import opened Areas
  import opened Objects
  import opened Overlay
  import opened Kernel
  import opened Flat
  import opened Access
  import opened Removal
  import opened Creation
  import opened Forking
  import opened Representation

  datatype Op =
    | DoMmap(p: nat, r: Request)
    | DoMunmap(p: nat, lo: nat, n: nat)
    | DoFork(p: nat)
    | DoFault(p: nat, v: nat, write: bool, exec: bool)
    | DoRead(p: nat, v: nat)
    | DoWrite(p: nat, v: nat, at: nat, bytes: seq<Byte>)
    | DoStore(p: nat, v: nat, at: nat, bytes: seq<Byte>)
    | DoLoad(p: nat, start: nat)
    | DoBrk(p: nat, addr: nat)
    | DoExit(p: nat)

  /** What the code demands of its callers. */
  predicate Enabled(k: State, op: Op) {
    op.p < |k.spaces| &&
    match op
    case DoMmap(p, r) => MapOk(k, p, r)
    case DoWrite(_, _, at, bytes) => at + |bytes| <= PAGE_SIZE
    case DoStore(_, _, at, bytes) => at + |bytes| <= PAGE_SIZE
    case DoBrk(p, addr) => BrkOk(k, p, addr)
    case _ => true
  }

  function Step(k: State, op: Op): State
    requires Enabled(k, op)
  {
    match op
    case DoMmap(p, r) => Mmap(k, p, r)
    case DoMunmap(p, lo, n) => Unmap(k, p, lo, lo + n)
    case DoFork(p) => Fork(k, p)
    case DoFault(p, v, write, exec) => Fault(k, p, v, write, exec)
    case DoRead(p, v) => KernelRead(k, p, v)
    case DoWrite(p, v, at, bytes) => KernelWrite(k, p, v, at, bytes)
    case DoStore(p, v, at, bytes) => UserStore(k, p, v, at, bytes)
    case DoLoad(p, start) => SetBreaks(k, p, start, start)
    case DoBrk(p, addr) => if Brk(k, p, addr).Some? then Brk(k, p, addr).value else k
    case DoExit(p) => Exit(k, p)
  }

  /** A run; operations the code does not allow at their point are left out. */
  function Run(k: State, ops: seq<Op>): State {
    if ops == [] then k
    else
      var j := Run(k, ops[..|ops| - 1]);
      var op := ops[|ops| - 1];
      if Enabled(j, op) then Step(j, op) else j
  }

  // ----- The start: file objects the file system holds, and one process without memory -----

  function FileObj(store: map<nat, Page>): Obj {
    Obj(1, map[], File(store))
  }

  function Below(n: nat): (s: set<nat>)
    ensures forall o: nat :: o in s <==> o < n
  {
    if n == 0 then {} else Below(n - 1) + {n - 1}
  }

  function Boot(stores: seq<map<nat, Page>>): State {
    State(seq(|stores|, i requires 0 <= i < |stores| => FileObj(stores[i])),
          [EMPTY_SPACE],
          multiset(Below(|stores|)))
  }

  lemma {:induction false} NoPointers(h: Heap, o: nat)
    requires forall x: nat :: !IsShadow(h, x)
    ensures Pointers(h, o) == 0
  {
    if h != [] {
      var t := h[..|h| - 1];
      assert forall x: nat :: IsShadow(t, x) ==> IsShadow(h, x);
      NoPointers(t, o);
      assert !IsShadow(h, |h| - 1);
    }
  }

  lemma BootInv(stores: seq<map<nat, Page>>)
    ensures Inv(Boot(stores))
  {
    var k := Boot(stores);
    assert AreaRefs(k.spaces) == multiset{};
    forall o: nat
      ensures ExactAt(k.heap, Refs(k), o)
    {
      NoPointers(k.heap, o);
    }
  }

  lemma StepInv(k: State, op: Op)
    requires Inv(k) && Enabled(k, op)
    ensures Inv(Step(k, op))
  {
    hide Inv;
    match op
    case DoMmap(p, r) => MmapInv(k, p, r);
    case DoMunmap(p, lo, n) => UnmapInv(k, p, lo, lo + n);
    case DoFork(p) => ForkInv(k, p);
    case DoFault(p, v, write, exec) => FaultInv(k, p, v, write, exec);
    case DoRead(p, v) => KernelReadInv(k, p, v);
    case DoWrite(p, v, at, bytes) => KernelWriteInv(k, p, v, at, bytes);
    case DoStore(p, v, at, bytes) => UserStoreInv(k, p, v, at, bytes);
    case DoLoad(p, start) => SetBreaksInv(k, p, start, start);
    case DoBrk(p, addr) => BrkInv(k, p, addr);
    case DoExit(p) => ExitInv(k, p);
  }

  /** The state invariant, with exact counts, sorted maps and sound page tables, holds in every run. */
  lemma {:induction false} RunInv(stores: seq<map<nat, Page>>, ops: seq<Op>)
    ensures Inv(Run(Boot(stores), ops))
  {
    if ops == [] {
      BootInv(stores);
    } else {
      RunInv(stores, ops[..|ops| - 1]);
      var j := Run(Boot(stores), ops[..|ops| - 1]);
      if Enabled(j, ops[|ops| - 1]) {
        StepInv(j, ops[|ops| - 1]);
      }
    }
  }

  // ----- The matching flat run -----

  function MmapLabel(k: State, p: nat, r: Request): seq<FOp>
    requires MapOk(k, p, r)
  {
    match Target(k, p, r)
    case None => []
    case Some(l) =>
      var attach := [FMap(p, l, r, |Cleared(k, p, l, r).heap|)];
      if IsClear(k, p, l, r) then attach else [FUnmap(p, l, l + r.n)] + attach
  }

  function FaultLabel(k: State, p: nat, v: nat, write: bool, exec: bool): seq<FOp> {
    if AtPage(k, p, v).None? || Denied(AtPage(k, p, v).value.prot, write, exec) || View(k, p, v).None? then [FExit(p)]
    else if write then [FTouch(p, v)]
    else []
  }

  function BrkLabel(k: State, p: nat, addr: nat): seq<FOp>
    requires BrkOk(k, p, addr)
  {
    if addr == 0 || Brk(k, p, addr).None? then []
    else
      var s := k.spaces[p].areas;
      var i := Find(s, k.spaces[p].startBrk / PAGE_SIZE).value;
      var prev, cur := s[i].end, PageUp(addr);
      if prev < cur then [FGrow(p, k.spaces[p].startBrk / PAGE_SIZE, cur)]
      else if cur < prev then [FUnmap(p, cur, prev)]
      else []
  }

  /** The flat operations a kernel operation amounts to. */
  function Label(k: State, op: Op): seq<FOp>
    requires Enabled(k, op)
  {
    match op
    case DoMmap(p, r) => MmapLabel(k, p, r)
    case DoMunmap(p, lo, n) => [FUnmap(p, lo, lo + n)]
    case DoFork(p) => [FFork(p)]
    case DoFault(p, v, write, exec) => FaultLabel(k, p, v, write, exec)
    case DoRead(p, v) => []
    case DoWrite(p, v, at, bytes) => [FWrite(p, v, at, bytes)]
    case DoStore(p, v, at, bytes) => if CanStore(k, p, v) then [FWrite(p, v, at, bytes)] else []
    case DoLoad(p, start) => []
    case DoBrk(p, addr) => BrkLabel(k, p, addr)
    case DoExit(p) => [FExit(p)]
  }

  function FRun(f: FState, ops: seq<FOp>): FState {
    if ops == [] then f
    else
      var g := FRun(f, ops[..|ops| - 1]);
      if FOpOk(g, ops[|ops| - 1]) then FStep(g, ops[|ops| - 1]) else g
  }

  function Trace(k: State, ops: seq<Op>): seq<FOp> {
    if ops == [] then []
    else
      var j := Run(k, ops[..|ops| - 1]);
      var op := ops[|ops| - 1];
      Trace(k, ops[..|ops| - 1]) + if Enabled(j, op) then Label(j, op) else []
  }

  function FBoot(stores: seq<map<nat, Page>>): FState {
    FState([Proc(map[], map[])], 0, map o: nat | o < |stores| :: FObj(map[], Some(stores[o])))
  }

  lemma BootSim(stores: seq<map<nat, Page>>)
    ensures Sim(Boot(stores), FBoot(stores))
  {
    var k, f := Boot(stores), FBoot(stores);
    forall b: nat | Bottom(k.heap, b)
      ensures b in f.common && SimObj(k.heap, b, f.common[b])
    {
      assert k.heap[b] == FileObj(stores[b]);
    }
  }

  lemma {:induction false} FRunAppend(f: FState, s: seq<FOp>, t: seq<FOp>)
    ensures FRun(f, s + t) == FRun(FRun(f, s), t)
  {
    if t == [] {
      assert s + t == s;
    } else {
      assert (s + t)[..|s + t| - 1] == s + t[..|t| - 1];
      FRunAppend(f, s, t[..|t| - 1]);
    }
  }

  lemma FRunOne(f: FState, op: FOp)
    ensures FRun(f, [op]) == if FOpOk(f, op) then FStep(f, op) else f
  {
    assert [op][..0] == [];
    assert FRun(f, []) == f;
  }

  lemma AttachRun(k: State, f: FState, p: nat, l: nat, r: Request)
    requires Inv(k) && Sim(k, f) && Room(k, p, l, r)
    ensures Sim(Attach(k, p, l, r), FRun(f, [FMap(p, l, r, |k.heap|)]))
  {
    AttachSim(k, f, p, l, r);
    FRunOne(f, FMap(p, l, r, |k.heap|));
  }

  lemma UnmapRun(k: State, f: FState, p: nat, lo: nat, hi: nat)
    requires Inv(k) && Sim(k, f) && p < |k.spaces| && lo <= hi
    ensures Sim(Unmap(k, p, lo, hi), FRun(f, [FUnmap(p, lo, hi)]))
  {
    UnmapSim(k, f, p, lo, hi);
    FRunOne(f, FUnmap(p, lo, hi));
  }

  lemma UnmapAttachRun(k: State, f: FState, p: nat, l: nat, r: Request)
    requires Inv(k) && Sim(k, f) && p < |k.spaces| && Inv(Unmap(k, p, l, l + r.n)) &&
             Room(Unmap(k, p, l, l + r.n), p, l, r)
    ensures var j := Unmap(k, p, l, l + r.n);
            Sim(Attach(j, p, l, r), FRun(f, [FUnmap(p, l, l + r.n)] + [FMap(p, l, r, |j.heap|)]))
  {
    hide Inv, Sim, Room, Unmap, Attach, FStep;
    var j := Unmap(k, p, l, l + r.n);
    var u := [FUnmap(p, l, l + r.n)];
    UnmapRun(k, f, p, l, l + r.n);
    AttachRun(j, FRun(f, u), p, l, r);
    FRunAppend(f, u, [FMap(p, l, r, |j.heap|)]);
  }

  lemma MmapSim(k: State, f: FState, p: nat, r: Request)
    requires Inv(k) && Sim(k, f) && MapOk(k, p, r)
    ensures Sim(Mmap(k, p, r), FRun(f, MmapLabel(k, p, r)))
  {
    hide Inv, Sim, Room, Attach, Unmap;
    if Target(k, p, r).Some? {
      var l := Target(k, p, r).value;
      ClearedRoom(k, p, r);
      if IsClear(k, p, l, r) {
        AttachRun(k, f, p, l, r);
      } else {
        UnmapAttachRun(k, f, p, l, r);
      }
    }
  }

  lemma FaultSim(k: State, f: FState, p: nat, v: nat, write: bool, exec: bool)
    requires Inv(k) && Sim(k, f) && p < |k.spaces|
    ensures Sim(Fault(k, p, v, write, exec), FRun(f, FaultLabel(k, p, v, write, exec)))
  {
    FRunOne(f, FExit(p));
    if AtPage(k, p, v).None? || Denied(AtPage(k, p, v).value.prot, write, exec) || View(k, p, v).None? {
      assert p < |f.mem|;
      hide Sim;
      ExitSim(k, f, p);
    } else {
      ServedSim(k, f, p, v, write, exec);
    }
  }

  lemma ServedSim(k: State, f: FState, p: nat, v: nat, write: bool, exec: bool)
    requires Inv(k) && Sim(k, f) && p < |k.spaces| && AtPage(k, p, v).Some?
    requires !Denied(AtPage(k, p, v).value.prot, write, exec) && View(k, p, v).Some?
    ensures Sim(Fault(k, p, v, write, exec), FRun(f, FaultLabel(k, p, v, write, exec)))
  {
    FRunOne(f, FTouch(p, v));
    assert p < |f.mem|;
    hide Sim, Denied;
    var m := AtPage(k, p, v).value;
    MappedLive(k, p, v);
    LookupWriteKeeps(k.heap, m.obj, m.page, Refs(k));
    hide Inv;
    if write {
      TouchSim(k, f, p, v);
      SetPtesSim(Looked(k, p, v), Touch(f, p, v), p, k.spaces[p].ptes[v := Pte(m.obj, m.page, true)]);
    } else {
      KernelReadSim(k, f, p, v);
      SetPtesSim(KernelRead(k, p, v), f, p, k.spaces[p].ptes[v := Pte(Source(k.heap, m.obj, m.page), m.page, false)]);
    }
  }

  lemma BrkSim(k: State, f: FState, p: nat, addr: nat)
    requires Inv(k) && Sim(k, f) && BrkOk(k, p, addr)
    ensures Sim(Step(k, DoBrk(p, addr)), FRun(f, BrkLabel(k, p, addr)))
  {
    if addr != 0 && Brk(k, p, addr).Some? {
      var s := k.spaces[p].areas;
      var i := Find(s, k.spaces[p].startBrk / PAGE_SIZE).value;
      var prev, cur := s[i].end, PageUp(addr);
      var start := k.spaces[p].startBrk;
      if prev < cur {
        var op := FGrow(p, start / PAGE_SIZE, cur);
        GrowSim(k, f, p, i, cur, start / PAGE_SIZE);
        FRunOne(f, op);
        SetBreaksSim(Grow(k, p, i, cur), FStep(f, op), p, start, addr);
      } else if cur < prev {
        UnmapSim(k, f, p, cur, prev);
        FRunOne(f, FUnmap(p, cur, prev));
        SetBreaksSim(Unmap(k, p, cur, prev), FStep(f, FUnmap(p, cur, prev)), p, start, addr);
      } else {
        SetBreaksSim(k, f, p, start, addr);
      }
    }
  }

  lemma ForkRun(k: State, f: FState, p: nat)
    requires Inv(k) && Sim(k, f) && p < |k.spaces|
    ensures Sim(Fork(k, p), FRun(f, [FFork(p)]))
  {
    ForkSim(k, f, p);
    FRunOne(f, FFork(p));
  }

  lemma ExitRun(k: State, f: FState, p: nat)
    requires Inv(k) && Sim(k, f) && p < |k.spaces|
    ensures Sim(Exit(k, p), FRun(f, [FExit(p)]))
  {
    ExitSim(k, f, p);
    FRunOne(f, FExit(p));
  }

  lemma WriteRun(k: State, f: FState, p: nat, v: nat, at: nat, bytes: seq<Byte>)
    requires Inv(k) && Sim(k, f) && p < |k.spaces| && at + |bytes| <= PAGE_SIZE
    ensures Sim(KernelWrite(k, p, v, at, bytes), FRun(f, [FWrite(p, v, at, bytes)]))
    ensures CanStore(k, p, v) ==> Sim(UserStore(k, p, v, at, bytes), FRun(f, [FWrite(p, v, at, bytes)]))
  {
    KernelWriteSim(k, f, p, v, at, bytes);
    FRunOne(f, FWrite(p, v, at, bytes));
    if CanStore(k, p, v) {
      UserStoreIsWrite(k, p, v, at, bytes);
    }
  }

  /** Every kernel step is matched by flat steps. */
  lemma StepSim(k: State, f: FState, op: Op)
    requires Inv(k) && Sim(k, f) && Enabled(k, op)
    ensures Sim(Step(k, op), FRun(f, Label(k, op)))
  {
    hide Inv, Sim;
    match op
    case DoMmap(p, r) => MmapSim(k, f, p, r);
    case DoMunmap(p, lo, n) => UnmapRun(k, f, p, lo, lo + n);
    case DoFork(p) => ForkRun(k, f, p);
    case DoFault(p, v, write, exec) => FaultSim(k, f, p, v, write, exec);
    case DoRead(p, v) => KernelReadSim(k, f, p, v);
    case DoWrite(p, v, at, bytes) => WriteRun(k, f, p, v, at, bytes);
    case DoStore(p, v, at, bytes) => WriteRun(k, f, p, v, at, bytes);
    case DoLoad(p, start) => SetBreaksSim(k, f, p, start, start);
    case DoBrk(p, addr) => BrkSim(k, f, p, addr);
    case DoExit(p) => ExitRun(k, f, p);
  }

  /** Every run of the kernel represents the flat run it amounts to: processes see exactly what
      they would see with a flat memory each. */
  lemma {:induction false} RunRefines(stores: seq<map<nat, Page>>, ops: seq<Op>)
    ensures Sim(Run(Boot(stores), ops), FRun(FBoot(stores), Trace(Boot(stores), ops)))
    ensures forall p: nat, v: nat ::
              View(Run(Boot(stores), ops), p, v) == FView(FRun(FBoot(stores), Trace(Boot(stores), ops)), p, v)
  {
    var k0, f0 := Boot(stores), FBoot(stores);
    if ops == [] {
      BootSim(stores);
    } else {
      var t, op := ops[..|ops| - 1], ops[|ops| - 1];
      RunRefines(stores, t);
      RunInv(stores, t);
      var j, g := Run(k0, t), FRun(f0, Trace(k0, t));
      if Enabled(j, op) {
        StepSim(j, g, op);
        FRunAppend(f0, Trace(k0, t), Label(j, op));
      } else {
        assert Trace(k0, ops) == Trace(k0, t);
      }
    }
    RunInv(stores, ops);
    forall p: nat, v: nat
      ensures View(Run(k0, ops), p, v) == FView(FRun(f0, Trace(k0, ops)), p, v)
    {
      SimView(Run(k0, ops), FRun(f0, Trace(k0, ops)), p, v);
    }
  }
}
