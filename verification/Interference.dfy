/** What other processes do never shows through private memory, over whole runs. */
module Interference {
  import opened Wrappers
  import opened Areas
  import opened Objects
  import opened Overlay
  import opened Kernel
  import opened Flat
  import opened Access
  import opened Removal
  import opened Creation
  import opened Forking
  import opened Representation
  import opened Runs
  import opened Theorems

  // ----- Private and shared areas meet only in files -----

  /** An object that is the bottom of a private area and shown by a shared area is a file. */
  ghost predicate Apart(k: State) {
    forall p: nat, a: Area, q: nat, b: Area
      | HasArea(k, p, a) && HasArea(k, q, b) && !a.shared && b.shared && BottomOf(k.heap, a.obj) == b.obj ::
        b.obj in k.files
  }

  /** An area with that sharing over that bottom. */
  ghost predicate Occurs(k: State, shared: bool, x: nat) {
    exists p: nat, a: Area :: HasArea(k, p, a) && a.shared == shared && BottomOf(k.heap, a.obj) == x
  }

  /** Areas of j lie over the bottoms of areas of k, over files, or over new objects, the latter
      all shared or all private. */
  ghost predicate Derives(k: State, j: State, shared: bool) {
    forall q: nat, b: Area | HasArea(j, q, b) ::
      var x := BottomOf(j.heap, b.obj);
      x in j.files || (x >= |k.heap| && b.shared == shared) || (x < |k.heap| && Occurs(k, b.shared, x))
  }

  lemma DerivesApart(k: State, j: State, shared: bool)
    requires Inv(k) && Apart(k) && Inv(j) && Derives(k, j, shared) && j.files == k.files
    ensures Apart(j)
  {
    forall p: nat, a: Area, q: nat, b: Area
      | HasArea(j, p, a) && HasArea(j, q, b) && !a.shared && b.shared && BottomOf(j.heap, a.obj) == b.obj
      ensures b.obj in j.files
    {
      assert BottomOf(j.heap, b.obj) == b.obj;
    }
  }

  lemma NarrowedDerives(k: State, j: State)
    requires Inv(k) && KindsOk(j) && Narrowed(k, j) && Shrunk(k.heap, j.heap)
    ensures Derives(k, j, true)
  {
    forall q: nat, b: Area | HasArea(j, q, b)
      ensures Occurs(k, b.shared, BottomOf(j.heap, b.obj)) && BottomOf(j.heap, b.obj) < |k.heap|
    {
      var a: Area :| HasArea(k, q, a) && Like(a, b);
      assert BottomOf(k.heap, a.obj) == BottomOf(j.heap, b.obj);
      if IsShadow(k.heap, a.obj) {
        assert LinkOk(k.heap, a.obj, k.heap[a.obj].kind.shadowed, k.heap[a.obj].kind.bottom);
      }
    }
  }

  /** The same areas over a heap with the same links. */
  lemma SameLinksDerives(k: State, j: State)
    requires Inv(k) && Repaged(k.heap, j.heap) && NoneBack(k.heap, j.heap)
    requires forall q: nat, b: Area | HasArea(j, q, b) :: HasArea(k, q, b)
    ensures Derives(k, j, true)
  {
    forall q: nat, b: Area | HasArea(j, q, b)
      ensures Occurs(k, b.shared, BottomOf(j.heap, b.obj)) && BottomOf(j.heap, b.obj) < |k.heap|
    {
      assert HasArea(k, q, b);
      assert BottomOf(k.heap, b.obj) == BottomOf(j.heap, b.obj);
      if IsShadow(k.heap, b.obj) {
        assert LinkOk(k.heap, b.obj, k.heap[b.obj].kind.shadowed, k.heap[b.obj].kind.bottom);
      }
    }
  }

  lemma OldBottom(h: Heap, g: Heap, o: nat)
    requires Linked(h) && Extends(h, g) && Live(h, o)
    ensures BottomOf(g, o) == BottomOf(h, o) < |h|
  {
    if IsShadow(h, o) {
      assert LinkOk(h, o, h[o].kind.shadowed, h[o].kind.bottom);
    }
  }

  lemma AttachDerives(k: State, p: nat, l: nat, r: Request)
    requires Inv(k) && Room(k, p, l, r)
    ensures Derives(k, Attach(k, p, l, r), r.shared)
  {
    var j := Attach(k, p, l, r);
    MakeObjKeeps(k.heap, r, Refs(k));
    MakeBottomKeeps(k.heap, r.file, Refs(k));
    forall q: nat, b: Area | HasArea(j, q, b)
      ensures var x := BottomOf(j.heap, b.obj);
              x in j.files || (x >= |k.heap| && b.shared == r.shared) || (x < |k.heap| && Occurs(k, b.shared, x))
    {
      AttachHas(k, p, l, r, q, b);
      if HasArea(k, q, b) {
        OldBottom(k.heap, j.heap, b.obj);
      } else {
        assert BottomOf(j.heap, b.obj) == MakeBottom(k.heap, r.file).obj;
      }
    }
  }

  lemma ForkDerives(k: State, p: nat)
    requires Inv(k) && p < |k.spaces|
    ensures Derives(k, Fork(k, p), true)
  {
    var j := Fork(k, p);
    var s := k.spaces[p].areas;
    ForkAllShadows(k.heap, s);
    ForkInv(k, p);
    forall q: nat, b: Area | HasArea(j, q, b)
      ensures BottomOf(j.heap, b.obj) < |k.heap| && Occurs(k, b.shared, BottomOf(j.heap, b.obj))
    {
      ForkAreaIs(k, p, q, b);
      if IsNew(k, p, q, b) {
        assert ShadowsArea(j.heap, s, b.obj);
        var a: Area :| a in s && !a.shared && a.obj == j.heap[b.obj].kind.shadowed;
        assert HasArea(k, p, a);
        assert LinkOk(j.heap, b.obj, a.obj, j.heap[b.obj].kind.bottom);
        OldBottom(k.heap, j.heap, a.obj);
      } else {
        OldBottom(k.heap, j.heap, b.obj);
      }
    }
  }

  lemma UnmapApart(k: State, p: nat, lo: nat, hi: nat)
    requires Inv(k) && Apart(k) && p < |k.spaces| && lo <= hi
    ensures Apart(Unmap(k, p, lo, hi))
  {
    var j := Unmap(k, p, lo, hi);
    UnmapInv(k, p, lo, hi);
    UnmapValid(k, p, lo, hi);
    UnmapNarrows(k, p, lo, hi);
    NarrowedDerives(k, j);
    DerivesApart(k, j, true);
  }

  lemma ExitApart(k: State, p: nat)
    requires Inv(k) && Apart(k) && p < |k.spaces|
    ensures Apart(Exit(k, p))
  {
    var j := Exit(k, p);
    ExitInv(k, p);
    ExitValid(k, p);
    forall q: nat, b: Area | HasArea(j, q, b)
      ensures exists a: Area :: HasArea(k, q, a) && Like(a, b)
    {
      assert HasArea(k, q, b) && Like(b, b);
    }
    NarrowedDerives(k, j);
    DerivesApart(k, j, true);
  }

  lemma MmapApart(k: State, p: nat, r: Request)
    requires Inv(k) && Apart(k) && MapOk(k, p, r)
    ensures Apart(Mmap(k, p, r))
  {
    hide Inv, Apart, Derives, Room, Unmap, Attach;
    if Target(k, p, r).Some? {
      var l := Target(k, p, r).value;
      var j := Cleared(k, p, l, r);
      ClearedRoom(k, p, r);
      if !IsClear(k, p, l, r) { UnmapApart(k, p, l, l + r.n); }
      AttachApart(j, p, l, r);
    }
  }

  lemma AttachApart(k: State, p: nat, l: nat, r: Request)
    requires Inv(k) && Apart(k) && Room(k, p, l, r)
    ensures Apart(Attach(k, p, l, r))
  {
    AttachDerives(k, p, l, r);
    AttachInv(k, p, l, r);
    DerivesApart(k, Attach(k, p, l, r), r.shared);
  }

  lemma ForkApart(k: State, p: nat)
    requires Inv(k) && Apart(k) && p < |k.spaces|
    ensures Apart(Fork(k, p))
  {
    ForkDerives(k, p);
    ForkInv(k, p);
    DerivesApart(k, Fork(k, p), true);
  }

  /** Steps that change pages and page tables only. */
  lemma PagesApart(k: State, j: State)
    requires Inv(k) && Apart(k) && Inv(j) && j.files == k.files
    requires Repaged(k.heap, j.heap) && NoneBack(k.heap, j.heap)
    requires forall q: nat, b: Area | HasArea(j, q, b) :: HasArea(k, q, b)
    ensures Apart(j)
  {
    SameLinksDerives(k, j);
    DerivesApart(k, j, true);
  }

  lemma FaultApart(k: State, p: nat, v: nat, write: bool, exec: bool)
    requires Inv(k) && Apart(k) && p < |k.spaces|
    ensures Apart(Fault(k, p, v, write, exec))
  {
    ExitApart(k, p);
    if AtPage(k, p, v).Some? && !Denied(AtPage(k, p, v).value.prot, write, exec) {
      var m := AtPage(k, p, v).value;
      var f := if write then LookupWrite(k.heap, m.obj, m.page) else LookupRead(k.heap, m.obj, m.page);
      LookupWriteRepages(k.heap, m.obj, m.page);
      LookupReadRepages(k.heap, m.obj, m.page);
      FaultInv(k, p, v, write, exec);
      if f.frame.Some? {
        PagesApart(k, Fault(k, p, v, write, exec));
      }
    }
  }

  lemma StoreRepages(h: Heap, o: nat, n: nat, c: Page)
    requires Live(h, o) && n in h[o].pages
    ensures Repaged(h, StorePage(h, o, n, c)) && NoneBack(h, StorePage(h, o, n, c))
  {
  }

  lemma RepagesTwice(f: Heap, g: Heap, h: Heap)
    requires Repaged(f, g) && Repaged(g, h) && NoneBack(f, g) && NoneBack(g, h)
    ensures Repaged(f, h) && NoneBack(f, h)
  {
  }

  lemma KernelWriteApart(k: State, p: nat, v: nat, at: nat, bytes: seq<Byte>)
    requires Inv(k) && Apart(k) && at + |bytes| <= PAGE_SIZE
    ensures Apart(KernelWrite(k, p, v, at, bytes))
  {
    hide Inv, Apart;
    var j := KernelWrite(k, p, v, at, bytes);
    if j.heap != k.heap {
      var m := AtPage(k, p, v).value;
      var f := LookupWrite(k.heap, m.obj, m.page);
      LookupWriteRepages(k.heap, m.obj, m.page);
      StoreRepages(f.heap, m.obj, m.page, Splice(f.heap[m.obj].pages[m.page], at, bytes));
      RepagesTwice(k.heap, f.heap, j.heap);
      KernelWriteInv(k, p, v, at, bytes);
      PagesApart(k, j);
    }
  }

  lemma UserStoreApart(k: State, p: nat, v: nat, at: nat, bytes: seq<Byte>)
    requires Inv(k) && Apart(k) && at + |bytes| <= PAGE_SIZE
    ensures Apart(UserStore(k, p, v, at, bytes))
  {
    hide Inv, Apart;
    if CanStore(k, p, v) {
      var e := k.spaces[p].ptes[v];
      StoreRepages(k.heap, e.obj, e.page, Splice(k.heap[e.obj].pages[e.page], at, bytes));
      UserStoreInv(k, p, v, at, bytes);
      PagesApart(k, UserStore(k, p, v, at, bytes));
    }
  }

  lemma ReadApart(k: State, p: nat, v: nat)
    requires Inv(k) && Apart(k)
    ensures Apart(KernelRead(k, p, v))
  {
    KernelReadInv(k, p, v);
    if AtPage(k, p, v).Some? {
      LookupReadRepages(k.heap, AtPage(k, p, v).value.obj, AtPage(k, p, v).value.page);
    }
    PagesApart(k, KernelRead(k, p, v));
  }

  lemma BreaksApart(k: State, p: nat, start: nat, addr: nat)
    requires Inv(k) && Apart(k) && p < |k.spaces|
    ensures Apart(SetBreaks(k, p, start, addr))
  {
    SetBreaksInv(k, p, start, addr);
    PagesApart(k, SetBreaks(k, p, start, addr));
  }

  lemma GrowApart(k: State, p: nat, i: nat, end: nat)
    requires Inv(k) && Apart(k) && p < |k.spaces| && i < |k.spaces[p].areas| && Inv(Grow(k, p, i, end))
    ensures Apart(Grow(k, p, i, end))
  {
    var j := Grow(k, p, i, end);
    var s := k.spaces[p].areas;
    forall q: nat, b: Area | HasArea(j, q, b)
      ensures exists c: Area :: HasArea(k, q, c) && Like(c, b)
    {
      if q == p && b == s[i].(end := end) {
        assert HasArea(k, q, s[i]) && Like(s[i], b);
      } else {
        assert HasArea(k, q, b) && Like(b, b);
      }
    }
    NarrowedDerives(k, j);
    DerivesApart(k, j, true);
  }

  lemma BrkApart(k: State, p: nat, addr: nat)
    requires Inv(k) && Apart(k) && BrkOk(k, p, addr)
    ensures Apart(Step(k, DoBrk(p, addr)))
  {
    if addr != 0 && Brk(k, p, addr).Some? {
      var s := k.spaces[p].areas;
      var i := Find(s, k.spaces[p].startBrk / PAGE_SIZE).value;
      var prev, cur := s[i].end, PageUp(addr);
      var start := k.spaces[p].startBrk;
      if prev < cur {
        GrowInv(k, p, i, cur);
        GrowApart(k, p, i, cur);
        BreaksApart(Grow(k, p, i, cur), p, start, addr);
      } else if cur < prev {
        UnmapInv(k, p, cur, prev);
        UnmapApart(k, p, cur, prev);
        BreaksApart(Unmap(k, p, cur, prev), p, start, addr);
      } else {
        BreaksApart(k, p, start, addr);
      }
    }
  }

  lemma StepApart(k: State, op: Op)
    requires Inv(k) && Apart(k) && Enabled(k, op)
    ensures Apart(Step(k, op))
  {
    hide Inv, Apart;
    match op
    case DoMmap(p, r) => MmapApart(k, p, r);
    case DoMunmap(p, lo, n) => UnmapApart(k, p, lo, lo + n);
    case DoFork(p) => ForkApart(k, p);
    case DoFault(p, v, write, exec) => FaultApart(k, p, v, write, exec);
    case DoRead(p, v) => ReadApart(k, p, v);
    case DoWrite(p, v, at, bytes) => KernelWriteApart(k, p, v, at, bytes);
    case DoStore(p, v, at, bytes) => UserStoreApart(k, p, v, at, bytes);
    case DoLoad(p, start) => BreaksApart(k, p, start, start);
    case DoBrk(p, addr) => BrkApart(k, p, addr);
    case DoExit(p) => ExitApart(k, p);
  }

  lemma {:induction false} RunApart(stores: seq<map<nat, Page>>, ops: seq<Op>)
    ensures Apart(Run(Boot(stores), ops))
  {
    if ops != [] {
      var t, op := ops[..|ops| - 1], ops[|ops| - 1];
      RunApart(stores, t);
      RunInv(stores, t);
      if Enabled(Run(Boot(stores), t), op) {
        StepApart(Run(Boot(stores), t), op);
      }
    }
  }

  // ----- Non-interference -----

  /** A private page whose contents are its own, or come from a bottom no file stands behind. */
  predicate Safe(k: State, c: nat, v: nat) {
    match PageOf(k, c, v)
    case None => false
    case Some(x) => !x.shared && (x.cell.Own? || x.cell.obj !in k.files)
  }

  /** Whether moving the break to addr unmaps page v. */
  predicate BrkCuts(k: State, p: nat, addr: nat, v: nat)
    requires BrkOk(k, p, addr)
  {
    && addr != 0 && !BrkRefused(k.spaces[p], addr)
    && var a := k.spaces[p].areas[Find(k.spaces[p].areas, k.spaces[p].startBrk / PAGE_SIZE).value];
       PageUp(addr) <= v < a.end
  }

  /** A fault that does not end the process. */
  predicate Served(k: State, p: nat, v: nat, write: bool, exec: bool) {
    AtPage(k, p, v).Some? && !Denied(AtPage(k, p, v).value.prot, write, exec) && View(k, p, v).Some?
  }

  /** Anything others do, and whatever process c itself does without writing to page v, unmapping it,
      mapping over it or ending. */
  predicate Quiet(k: State, op: Op, c: nat, v: nat)
    requires Enabled(k, op)
  {
    op.p == c ==>
      match op
      case DoMmap(p, r) => Target(k, p, r).Some? ==> !(Target(k, p, r).value <= v < Target(k, p, r).value + r.n)
      case DoMunmap(_, lo, n) => !(lo <= v < lo + n)
      case DoFork(_) => true
      case DoFault(p, w, write, exec) => Served(k, p, w, write, exec)
      case DoRead(_, _) => true
      case DoWrite(_, w, _, _) => w != v
      case DoStore(_, w, _, _) => w != v
      case DoLoad(_, _) => true
      case DoBrk(p, addr) => !BrkCuts(k, p, addr, v)
      case DoExit(_) => false
  }

  predicate Elsewhere(f: FState, c: nat, v: nat, b: nat) {
    FAt(f, c, v).Some? ==> FAt(f, c, v).value.cell.Own? || FAt(f, c, v).value.cell.obj != b
  }

  /** Page v of c is private and has a region that is in use. */
  predicate Private(f: FState, c: nat, v: nat) {
    HasRegion(f, c, v) && f.mem[c].pages[v].ref < f.next
  }

  /** The flat operation leaves what (c, v) shows alone. */
  predicate FQuiet(f: FState, op: FOp, c: nat, v: nat) {
    match op
    case FUnmap(p, lo, hi) => p != c || !(lo <= v < hi)
    case FExit(p) => p != c
    case FMap(p, l, r, id) => (p != c || !(l <= v < l + r.n)) && (r.file.None? ==> Elsewhere(f, c, v, id))
    case FFork(p) => p != c
    case FTouch(p, w) => Alone(f, p, w, c, v)
    case FWrite(p, w, _, _) =>
      && (p != c || w != v) && Alone(f, p, w, c, v)
      && (FAt(f, p, w).Some? ==> (FAt(f, p, w).value.shared <==> !HasRegion(f, p, w)))
      && (FAt(f, p, w).Some? && FAt(f, p, w).value.shared ==> Elsewhere(f, c, v, f.mem[p].pages[w].ref))
    case FGrow(_, _, _) => true
  }

  /** In g, page v of c is still private, shows what it showed, and has the same cell or a copy of its own. */
  predicate Kept(f: FState, g: FState, c: nat, v: nat) {
    && Private(g, c, v) && FView(g, c, v) == FView(f, c, v)
    && FAt(f, c, v).Some? && FAt(g, c, v).Some?
    && (FAt(g, c, v).value.cell == FAt(f, c, v).value.cell || FAt(g, c, v).value.cell.Own?)
  }

  lemma FQuietStep(f: FState, op: FOp, c: nat, v: nat)
    requires FOpOk(f, op) && FQuiet(f, op, c, v) && Private(f, c, v)
    ensures Kept(f, FStep(f, op), c, v)
  {
  }

  lemma FQuietPair(f: FState, p: nat, l: nat, r: Request, id: nat, c: nat, v: nat)
    requires FQuiet(f, FUnmap(p, l, l + r.n), c, v) && FQuiet(f, FMap(p, l, r, id), c, v) && Private(f, c, v)
    ensures Kept(f, FRun(f, [FUnmap(p, l, l + r.n)] + [FMap(p, l, r, id)]), c, v)
  {
    var a, b := FUnmap(p, l, l + r.n), FMap(p, l, r, id);
    FRunAppend(f, [a], [b]);
    FQuietOne(f, a, c, v);
    var g := FRun(f, [a]);
    UnmapKeepsCell(f, a, c, v);
    FQuietOne(g, b, c, v);
  }

  lemma UnmapKeepsCell(f: FState, a: FOp, c: nat, v: nat)
    requires a.FUnmap? && FQuiet(f, a, c, v) && Private(f, c, v)
    ensures FAt(FRun(f, [a]), c, v) == FAt(f, c, v)
  {
    FRunOne(f, a);
  }

  lemma FQuietOne(f: FState, op: FOp, c: nat, v: nat)
    requires FQuiet(f, op, c, v) && Private(f, c, v)
    ensures Kept(f, FRun(f, [op]), c, v)
  {
    FRunOne(f, op);
    hide FStep, FQuiet;
    if FOpOk(f, op) { FQuietStep(f, op, c, v); }
  }

  /** A safe page is private, and the object its cell names is the bottom of a private area. */
  lemma SafeCell(k: State, f: FState, c: nat, v: nat)
    requires Inv(k) && Sim(k, f) && Safe(k, c, v)
    ensures Private(f, c, v) && FAt(f, c, v) == PageOf(k, c, v)
    ensures var m := AtPage(k, c, v).value; var x := PageOf(k, c, v).value.cell;
            x.Common? ==> Bottom(k.heap, x.obj) && x.obj == BottomOf(k.heap, m.obj) && x.obj !in k.files
  {
    var m := AtPage(k, c, v).value;
    MappedLive(k, c, v);
    SourceIs(k.heap, m.obj, m.page);
    assert FAt(f, c, v) == PageOf(k, c, v);
    TiedOf(k, f, c, v);
  }

  lemma WriteElsewhere(k: State, f: FState, p: nat, w: nat, c: nat, v: nat)
    requires Inv(k) && Sim(k, f) && Apart(k) && Safe(k, c, v)
    requires FAt(f, p, w).Some? && FAt(f, p, w).value.shared
    ensures Elsewhere(f, c, v, f.mem[p].pages[w].ref)
  {
    SafeCell(k, f, c, v);
    assert FAt(f, p, w) == PageOf(k, p, w);
    SharedCell(k, f, p, w);
    var a := k.spaces[c].areas[Find(k.spaces[c].areas, v).value];
    var b := k.spaces[p].areas[Find(k.spaces[p].areas, w).value];
    assert HasArea(k, c, a) && HasArea(k, p, b);
  }

  /** A write to another page is quiet. */
  lemma WriteQuiet(k: State, f: FState, p: nat, w: nat, at: nat, bytes: seq<Byte>, c: nat, v: nat)
    requires Inv(k) && Sim(k, f) && Apart(k) && Safe(k, c, v) && (p != c || w != v)
    ensures FQuiet(f, FWrite(p, w, at, bytes), c, v)
  {
    hide Inv, Sim, Apart, Safe, Elsewhere, Alone;
    AloneInSim(k, f, p, w, c, v);
    if FAt(f, p, w).Some? && FAt(f, p, w).value.shared { WriteElsewhere(k, f, p, w, c, v); }
  }

  lemma NewElsewhere(k: State, f: FState, c: nat, v: nat)
    requires Inv(k) && Sim(k, f) && Safe(k, c, v)
    ensures Elsewhere(f, c, v, |k.heap|)
  {
    SafeCell(k, f, c, v);
  }

  lemma UnmapSize(k: State, p: nat, lo: nat, hi: nat)
    requires Inv(k) && p < |k.spaces| && lo <= hi
    ensures |Unmap(k, p, lo, hi).heap| == |k.heap|
  {
    UnmapValid(k, p, lo, hi);
  }

  lemma RangeQuiet(k: State, f: FState, p: nat, l: nat, r: Request, c: nat, v: nat)
    requires Inv(k) && Sim(k, f) && Safe(k, c, v) && (p == c ==> !(l <= v < l + r.n))
    ensures FQuiet(f, FMap(p, l, r, |k.heap|), c, v) && FQuiet(f, FUnmap(p, l, l + r.n), c, v)
  {
    hide Inv, Sim, Safe;
    NewElsewhere(k, f, c, v);
  }

  lemma MmapQuiet(k: State, f: FState, p: nat, r: Request, c: nat, v: nat)
    requires Inv(k) && Sim(k, f) && Safe(k, c, v) && MapOk(k, p, r)
    requires p == c && Target(k, p, r).Some? ==> !(Target(k, p, r).value <= v < Target(k, p, r).value + r.n)
    ensures Kept(f, FRun(f, MmapLabel(k, p, r)), c, v)
  {
    hide Inv, Sim, Safe, Kept, FQuiet, Private, Unmap, FRun, FStep, Target, PageOf, IsClear;
    SafeCell(k, f, c, v);
    if Target(k, p, r).None? {
      KeptSelf(f, c, v);
    } else {
      var l := Target(k, p, r).value;
      RangeQuiet(k, f, p, l, r, c, v);
      MapKept(k, f, p, l, r, c, v);
    }
  }

  lemma MapKept(k: State, f: FState, p: nat, l: nat, r: Request, c: nat, v: nat)
    requires Inv(k) && p < |k.spaces| && Private(f, c, v)
    requires FQuiet(f, FMap(p, l, r, |k.heap|), c, v) && FQuiet(f, FUnmap(p, l, l + r.n), c, v)
    ensures var attach := [FMap(p, l, r, |Cleared(k, p, l, r).heap|)];
            Kept(f, FRun(f, if IsClear(k, p, l, r) then attach else [FUnmap(p, l, l + r.n)] + attach), c, v)
  {
    hide Inv, IsClear, Kept, FQuiet, Private, Unmap, FRun, FStep;
    if IsClear(k, p, l, r) {
      FQuietOne(f, FMap(p, l, r, |k.heap|), c, v);
    } else {
      UnmapSize(k, p, l, l + r.n);
      FQuietPair(f, p, l, r, |k.heap|, c, v);
    }
  }

  lemma KeptSelf(f: FState, c: nat, v: nat)
    requires Private(f, c, v)
    ensures Kept(f, FRun(f, []), c, v)
  {
  }

  lemma BrkQuiet(k: State, f: FState, p: nat, addr: nat, c: nat, v: nat)
    requires Private(f, c, v) && BrkOk(k, p, addr) && (p == c ==> !BrkCuts(k, p, addr, v))
    ensures Kept(f, FRun(f, BrkLabel(k, p, addr)), c, v)
  {
    hide Kept, Private, FRun, RangeEmpty, Unmap, Grow;
    if BrkLabel(k, p, addr) == [] {
      KeptSelf(f, c, v);
    } else {
      FQuietOne(f, BrkLabel(k, p, addr)[0], c, v);
      assert BrkLabel(k, p, addr) == [BrkLabel(k, p, addr)[0]];
    }
  }

  lemma FaultQuiet(k: State, f: FState, p: nat, w: nat, write: bool, exec: bool, c: nat, v: nat)
    requires Inv(k) && Sim(k, f) && Private(f, c, v) && (p == c ==> Served(k, p, w, write, exec))
    ensures Kept(f, FRun(f, FaultLabel(k, p, w, write, exec)), c, v)
  {
    AloneInSim(k, f, p, w, c, v);
    hide Inv, Sim, Kept, Private, FRun, Alone;
    if FaultLabel(k, p, w, write, exec) == [] {
      KeptSelf(f, c, v);
    } else {
      FQuietOne(f, FaultLabel(k, p, w, write, exec)[0], c, v);
    }
  }

  lemma LabelQuiet(k: State, f: FState, op: Op, c: nat, v: nat)
    requires Inv(k) && Sim(k, f) && Apart(k) && Safe(k, c, v) && Enabled(k, op) && Quiet(k, op, c, v)
    requires op.DoFork? ==> op.p != c
    ensures Kept(f, FRun(f, Label(k, op)), c, v)
  {
    SafeCell(k, f, c, v);
    hide Inv, Sim, Apart, Safe, Kept, Private, FRun, MmapLabel, BrkLabel, FaultLabel, BrkCuts, Served, MapOk, View,
         AtPage, FOpOk;
    match op
    case DoMmap(p, r) => MmapQuiet(k, f, p, r, c, v);
    case DoMunmap(_, _, _) => SimplyQuiet(k, f, op, c, v);
    case DoFork(_) => SimplyQuiet(k, f, op, c, v);
    case DoFault(p, w, write, exec) => FaultQuiet(k, f, p, w, write, exec, c, v);
    case DoRead(_, _) => KeptSelf(f, c, v);
    case DoWrite(_, _, _, _) => StoreQuiet(k, f, op, c, v);
    case DoStore(_, _, _, _) => StoreQuiet(k, f, op, c, v);
    case DoLoad(_, _) => KeptSelf(f, c, v);
    case DoBrk(p, addr) => BrkQuiet(k, f, p, addr, c, v);
    case DoExit(_) => SimplyQuiet(k, f, op, c, v);
  }

  lemma SimplyQuiet(k: State, f: FState, op: Op, c: nat, v: nat)
    requires Enabled(k, op) && Quiet(k, op, c, v) && Private(f, c, v)
    requires op.DoMunmap? || op.DoExit? || (op.DoFork? && op.p != c)
    ensures Kept(f, FRun(f, Label(k, op)), c, v)
  {
    hide Kept, Private, FRun, FOpOk;
    match op
    case DoMunmap(p, lo, n) => FQuietOne(f, FUnmap(p, lo, lo + n), c, v);
    case DoFork(p) => FQuietOne(f, FFork(p), c, v);
    case DoExit(p) => FQuietOne(f, FExit(p), c, v);
  }

  lemma StoreQuiet(k: State, f: FState, op: Op, c: nat, v: nat)
    requires Inv(k) && Sim(k, f) && Apart(k) && Safe(k, c, v) && Enabled(k, op) && Quiet(k, op, c, v)
    requires op.DoWrite? || op.DoStore?
    ensures Kept(f, FRun(f, Label(k, op)), c, v)
  {
    SafeCell(k, f, c, v);
    hide Inv, Sim, Apart, Safe, Kept, Private, FRun, View, AtPage, FOpOk;
    WriteQuiet(k, f, op.p, op.v, op.at, op.bytes, c, v);
    FQuietOne(f, FWrite(op.p, op.v, op.at, op.bytes), c, v);
    KeptSelf(f, c, v);
  }

  /** One step that is quiet for a safe page leaves its contents, and leaves it safe. */
  lemma QuietStep(k: State, f: FState, op: Op, c: nat, v: nat)
    requires Inv(k) && Sim(k, f) && Apart(k) && Safe(k, c, v) && Enabled(k, op) && Quiet(k, op, c, v)
    ensures View(Step(k, op), c, v) == View(k, c, v) && Safe(Step(k, op), c, v)
  {
    StepFiles(k, op);
    SafeCell(k, f, c, v);
    StepSim(k, f, op);
    StepInv(k, op);
    hide Inv, Apart, Step, Label, Quiet, FRun, View, Enabled;
    SimView(k, f, c, v);
    if op.DoFork? && op.p == c {
      ForkQuiet(k, f, c, v);
    } else {
      LabelQuiet(k, f, op, c, v);
      SimView(Step(k, op), FRun(f, Label(k, op)), c, v);
      assert FAt(FRun(f, Label(k, op)), c, v) == PageOf(Step(k, op), c, v);
    }
  }

  lemma ForkQuiet(k: State, f: FState, c: nat, v: nat)
    requires Inv(k) && Sim(k, f) && c < |k.spaces|
    ensures var j := Step(k, DoFork(c)); View(j, c, v) == View(k, c, v) && PageOf(j, c, v) == PageOf(k, c, v)
  {
    var j, g := Fork(k, c), FStep(f, FFork(c));
    ForkSim(k, f, c);
    ForkInv(k, c);
    ForkPage(k, f, c, c, v);
    SimView(k, f, c, v);
    SimView(j, g, c, v);
    assert FAt(f, c, v) == PageOf(k, c, v) && FAt(g, c, v) == PageOf(j, c, v);
  }

  lemma StepFiles(k: State, op: Op)
    requires Enabled(k, op)
    ensures Step(k, op).files == k.files
  {
  }

  /** Every operation of more is quiet for page v of c where it happens. */
  ghost predicate AllQuiet(stores: seq<map<nat, Page>>, ops: seq<Op>, more: seq<Op>, c: nat, v: nat) {
    more == [] ||
    var k := Reached(stores, ops + more[..|more| - 1]);
    var op := more[|more| - 1];
    AllQuiet(stores, ops, more[..|more| - 1], c, v) && (Enabled(k, op) ==> Quiet(k, op, c, v))
  }

  /** Non-interference: after any run, whatever further run others perform, and c itself as long as it
      neither writes to the page nor gives it up, a safe private page of c keeps its contents. */
  lemma {:induction false} NonInterference(stores: seq<map<nat, Page>>, ops: seq<Op>, more: seq<Op>, c: nat, v: nat)
    requires Safe(Reached(stores, ops), c, v) && AllQuiet(stores, ops, more, c, v)
    ensures View(Reached(stores, ops + more), c, v) == View(Reached(stores, ops), c, v)
    ensures Safe(Reached(stores, ops + more), c, v)
  {
    hide Inv, Apart, Sim, PageOf, Quiet, Step, View, Enabled, Safe;
    if more == [] {
      assert ops + more == ops;
    } else {
      var t, op := more[..|more| - 1], more[|more| - 1];
      NonInterference(stores, ops, t, c, v);
      assert (ops + more)[..|ops + more| - 1] == ops + t;
      var k := Reached(stores, ops + t);
      if Enabled(k, op) {
        RunInv(stores, ops + t);
        RunApart(stores, ops + t);
        RunRefines(stores, ops + t);
        QuietStep(k, FlatReached(stores, ops + t), op, c, v);
      }
    }
  }
}
