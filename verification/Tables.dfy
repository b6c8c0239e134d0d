/** Page tables: what a process loads through its entries, against what its map shows. */
module Tables {
  import opened Wrappers
  import opened Areas
  import opened Objects
  import opened Overlay
  import opened Kernel
  import opened Access
  import opened Removal
  import opened Creation
  import opened Forking
  import opened Representation
  import opened Runs
  import opened Theorems

  /** The page the hardware shows at v. */
  function UserLoad(k: State, p: nat, v: nat): Option<Page> {
    if p < |k.spaces| && v in k.spaces[p].ptes then
      var e := k.spaces[p].ptes[v];
      if Live(k.heap, e.obj) && e.page in k.heap[e.obj].pages then Some(k.heap[e.obj].pages[e.page]) else None
    else None
  }

  /** The entry names the resident frame a read of that page ends at. */
  predicate EntryOk(h: Heap, m: Option<Mapping>, e: Pte) {
    && m.Some? && e.page == m.value.page && e.obj == Source(h, m.value.obj, m.value.page)
    && Live(h, e.obj) && e.page in h[e.obj].pages
  }

  ghost predicate Coherent(k: State) {
    forall p: nat, v: nat | p < |k.spaces| && v in k.spaces[p].ptes ::
      EntryOk(k.heap, AtPage(k, p, v), k.spaces[p].ptes[v])
  }

  lemma CoherentLoads(k: State, p: nat, v: nat)
    requires Coherent(k) && p < |k.spaces| && v in k.spaces[p].ptes
    ensures UserLoad(k, p, v).Some? && UserLoad(k, p, v) == View(k, p, v)
  {
    assert EntryOk(k.heap, AtPage(k, p, v), k.spaces[p].ptes[v]);
  }

  /** A kernel write that copies a page up while an entry still names the page below. */
  predicate Stale(k: State, op: Op) {
    && op.DoWrite? && op.p < |k.spaces| && op.v in k.spaces[op.p].ptes
    && AtPage(k, op.p, op.v).Some? && View(k, op.p, op.v).Some?
    && var m := AtPage(k, op.p, op.v).value;
       !m.shared && Live(k.heap, m.obj) && m.page !in k.heap[m.obj].pages
  }

  // ----- Each step -----

  /** An entry of k is still good in j where the mapping is the same and the read ends where it did. */
  lemma EntryKept(k: State, j: State, p: nat, v: nat, e: Pte)
    requires EntryOk(k.heap, AtPage(k, p, v), e) && AtPage(j, p, v) == AtPage(k, p, v)
    requires var m := AtPage(k, p, v).value; Source(j.heap, m.obj, m.page) == Source(k.heap, m.obj, m.page)
    requires Live(j.heap, e.obj) && e.page in j.heap[e.obj].pages
    ensures EntryOk(j.heap, AtPage(j, p, v), e)
  {
  }

  lemma EntrySurvives(k: State, j: State, p: nat, v: nat)
    requires Coherent(k) && Shrunk(k.heap, j.heap) && Inv(j)
    requires p < |k.spaces| && v in k.spaces[p].ptes && AtPage(j, p, v) == AtPage(k, p, v)
    ensures EntryOk(j.heap, AtPage(j, p, v), k.spaces[p].ptes[v])
  {
    var e := k.spaces[p].ptes[v];
    assert EntryOk(k.heap, AtPage(k, p, v), e);
    var m := AtPage(k, p, v).value;
    MappedLive(j, p, v);
    ShrunkShows(k.heap, j.heap, m.obj, m.page);
    EntryKept(k, j, p, v, e);
  }

  lemma UnmapCoherent(k: State, p: nat, lo: nat, hi: nat)
    requires Inv(k) && Coherent(k) && p < |k.spaces| && lo <= hi
    ensures Coherent(Unmap(k, p, lo, hi))
  {
    var j := Unmap(k, p, lo, hi);
    UnmapInv(k, p, lo, hi);
    UnmapValid(k, p, lo, hi);
    forall q: nat, v: nat | q < |j.spaces| && v in j.spaces[q].ptes
      ensures EntryOk(j.heap, AtPage(j, q, v), j.spaces[q].ptes[v])
    {
      UnmapAt(k, p, lo, hi, q, v);
      EntrySurvives(k, j, q, v);
    }
  }

  lemma ExitCoherent(k: State, p: nat)
    requires Inv(k) && Coherent(k) && p < |k.spaces|
    ensures Coherent(Exit(k, p))
  {
    var j := Exit(k, p);
    ExitInv(k, p);
    ExitValid(k, p);
    forall q: nat, v: nat | q < |j.spaces| && v in j.spaces[q].ptes
      ensures EntryOk(j.heap, AtPage(j, q, v), j.spaces[q].ptes[v])
    {
      EntrySurvives(k, j, q, v);
    }
  }

  lemma EntryExtends(k: State, j: State, p: nat, v: nat)
    requires Inv(k) && Coherent(k) && Extends(k.heap, j.heap)
    requires p < |k.spaces| && v in k.spaces[p].ptes && AtPage(j, p, v) == AtPage(k, p, v)
    ensures EntryOk(j.heap, AtPage(j, p, v), k.spaces[p].ptes[v])
  {
    var e := k.spaces[p].ptes[v];
    assert EntryOk(k.heap, AtPage(k, p, v), e);
    var m := AtPage(k, p, v).value;
    MappedLive(k, p, v);
    ExtendsShows(k.heap, j.heap, m.obj, m.page);
    EntryKept(k, j, p, v, e);
  }

  lemma AttachCoherent(k: State, p: nat, l: nat, r: Request)
    requires Inv(k) && Coherent(k) && Room(k, p, l, r)
    ensures Coherent(Attach(k, p, l, r))
  {
    var j := Attach(k, p, l, r);
    MakeObjKeeps(k.heap, r, Refs(k));
    forall q: nat, v: nat | q < |j.spaces| && v in j.spaces[q].ptes
      ensures EntryOk(j.heap, AtPage(j, q, v), j.spaces[q].ptes[v])
    {
      AttachAt(k, p, l, r, q, v);
      assert EntryOk(k.heap, AtPage(k, q, v), k.spaces[q].ptes[v]);
      EntryExtends(k, j, q, v);
    }
  }

  lemma MmapCoherent(k: State, p: nat, r: Request)
    requires Inv(k) && Coherent(k) && MapOk(k, p, r)
    ensures Coherent(Mmap(k, p, r))
  {
    hide Inv, Coherent, Room, Unmap, Attach;
    if Target(k, p, r).Some? {
      var l := Target(k, p, r).value;
      ClearedRoom(k, p, r);
      if !IsClear(k, p, l, r) { UnmapCoherent(k, p, l, l + r.n); }
      AttachCoherent(Cleared(k, p, l, r), p, l, r);
    }
  }

  lemma ForkCoherent(k: State, p: nat)
    requires Inv(k) && Coherent(k) && p < |k.spaces|
    ensures Coherent(Fork(k, p))
  {
    var j := Fork(k, p);
    ForkAllShadows(k.heap, k.spaces[p].areas);
    forall q: nat, v: nat | q < |j.spaces| && v in j.spaces[q].ptes
      ensures EntryOk(j.heap, AtPage(j, q, v), j.spaces[q].ptes[v])
    {
      EntryExtends(k, j, q, v);
    }
  }

  /** Where reads end does not move when a bottom page is filled. */
  lemma ReadCoherent(k: State, p: nat, v: nat)
    requires Inv(k) && Coherent(k)
    ensures Coherent(KernelRead(k, p, v))
  {
    if AtPage(k, p, v).Some? {
      var m := AtPage(k, p, v).value;
      var j := KernelRead(k, p, v);
      MappedLive(k, p, v);
      SourceIs(k.heap, m.obj, m.page);
      LookupReadRepages(k.heap, m.obj, m.page);
      forall q: nat, w: nat | q < |j.spaces| && w in j.spaces[q].ptes
        ensures EntryOk(j.heap, AtPage(j, q, w), j.spaces[q].ptes[w])
      {
        ReadEntry(k, m.obj, m.page, q, w);
      }
    }
  }

  lemma ReadEntry(k: State, o: nat, n: nat, q: nat, w: nat)
    requires Inv(k) && Coherent(k) && Live(k.heap, o) && q < |k.spaces| && w in k.spaces[q].ptes
    ensures EntryOk(LookupRead(k.heap, o, n).heap, AtPage(k, q, w), k.spaces[q].ptes[w])
  {
    var e := k.spaces[q].ptes[w];
    assert EntryOk(k.heap, AtPage(k, q, w), e);
    var m := AtPage(k, q, w).value;
    SourceIs(k.heap, o, n);
    LookupReadRepages(k.heap, o, n);
    var s := Source(k.heap, o, n);
    if !IsShadow(k.heap, s) { FillShows(k.heap, s, n, m.obj, m.page); }
  }

  /** A lookup for writing moves the end of no read but that of the page itself. */
  lemma LookupWriteSource(h: Heap, s: nat, n: nat, o: nat, k: nat)
    requires Linked(h) && Live(h, s) && (IsShadow(h, s) ==> Unshadowed(h, s))
    requires !(o == s && k == n) || !IsShadow(h, s) || n in h[s].pages
    ensures Source(LookupWrite(h, s, n).heap, o, k) == Source(h, o, k)
  {
    SourceIs(h, s, n);
    var b := Source(h, s, n);
    if Content(h, s, n).Some? && n !in h[s].pages {
      if !IsShadow(h, b) { FillShows(h, b, n, o, k); }
      if IsShadow(h, s) {
        var g := Fill(h, b, n);
        assert Unshadowed(g, s);
        var x := AddPage(g, s, n, Content(h, s, n).value)[s];
        if o != s {
          TopIsPrivate(g, s, x, o, k);
        } else if k !in g[s].pages && g[s].kind.shadowed < s {
          TopIsPrivate(g, s, x, g[s].kind.shadowed, k);
        }
      }
    }
  }

  /** Entries of other pages stay good when (p, v) is looked up for writing. */
  lemma LookedEntry(k: State, p: nat, v: nat, q: nat, w: nat)
    requires Inv(k) && Coherent(k) && AtPage(k, p, v).Some? && q < |k.spaces| && w in k.spaces[q].ptes
    requires var m := AtPage(k, p, v).value;
             q != p || w != v || m.shared || !Live(k.heap, m.obj) || m.page in k.heap[m.obj].pages
    ensures EntryOk(Looked(k, p, v).heap, AtPage(k, q, w), k.spaces[q].ptes[w])
  {
    var e := k.spaces[q].ptes[w];
    assert EntryOk(k.heap, AtPage(k, q, w), e);
    var m, m' := AtPage(k, p, v).value, AtPage(k, q, w).value;
    MappedLive(k, p, v);
    LookupWriteRepages(k.heap, m.obj, m.page);
    if !m.shared {
      TopOf(k, p, v);
      if m'.obj == m.obj && m'.page == m.page { OnePlace(k, p, v, q, w); }
    }
    LookupWriteSource(k.heap, m.obj, m.page, m'.obj, m'.page);
  }

  lemma FaultCoherent(k: State, p: nat, v: nat, write: bool, exec: bool)
    requires Inv(k) && Coherent(k) && p < |k.spaces|
    ensures Coherent(Fault(k, p, v, write, exec))
  {
    ExitCoherent(k, p);
    if AtPage(k, p, v).Some? && !Denied(AtPage(k, p, v).value.prot, write, exec) && View(k, p, v).Some? {
      var m := AtPage(k, p, v).value;
      var j := Fault(k, p, v, write, exec);
      MappedLive(k, p, v);
      LookupWriteKeeps(k.heap, m.obj, m.page, Refs(k));
      LookupReadKeeps(k.heap, m.obj, m.page, Refs(k));
      FaultEntry(k, p, v, write, exec);
      forall q: nat, w: nat | q < |j.spaces| && w in j.spaces[q].ptes && !(q == p && w == v)
        ensures EntryOk(j.heap, AtPage(j, q, w), j.spaces[q].ptes[w])
      {
        if write { LookedEntry(k, p, v, q, w); } else { ReadEntry(k, m.obj, m.page, q, w); }
      }
    }
  }

  /** The entry a fault installs names the frame a read of the page now ends at. */
  lemma FaultEntry(k: State, p: nat, v: nat, write: bool, exec: bool)
    requires Inv(k) && p < |k.spaces| && AtPage(k, p, v).Some? && View(k, p, v).Some?
    requires !Denied(AtPage(k, p, v).value.prot, write, exec)
    ensures var j := Fault(k, p, v, write, exec);
            && |j.spaces| == |k.spaces| && v in j.spaces[p].ptes
            && EntryOk(j.heap, AtPage(j, p, v), j.spaces[p].ptes[v])
            && j.spaces[p].ptes[v].writable == write
  {
    var m := AtPage(k, p, v).value;
    MappedLive(k, p, v);
    LookupWriteKeeps(k.heap, m.obj, m.page, Refs(k));
    LookupReadKeeps(k.heap, m.obj, m.page, Refs(k));
    SourceIs(k.heap, m.obj, m.page);
    if !write {
      FillKeeps(k.heap, Source(k.heap, m.obj, m.page), m.page, Refs(k));
    }
  }

  lemma StoreCoherent(k: State, o: nat, n: nat, c: Page)
    requires Coherent(k) && Live(k.heap, o) && n in k.heap[o].pages
    ensures Coherent(State(StorePage(k.heap, o, n, c), k.spaces, k.files))
  {
    var j := State(StorePage(k.heap, o, n, c), k.spaces, k.files);
    forall q: nat, w: nat | q < |j.spaces| && w in j.spaces[q].ptes
      ensures EntryOk(j.heap, AtPage(j, q, w), j.spaces[q].ptes[w])
    {
      assert EntryOk(k.heap, AtPage(k, q, w), k.spaces[q].ptes[w]);
      StoreShows(k.heap, o, n, c, AtPage(k, q, w).value.obj, AtPage(k, q, w).value.page);
    }
  }

  lemma LookedCoherent(k: State, p: nat, v: nat)
    requires Inv(k) && Coherent(k) && AtPage(k, p, v).Some?
    requires var m := AtPage(k, p, v).value;
             p >= |k.spaces| || v !in k.spaces[p].ptes || m.shared || !Live(k.heap, m.obj) ||
               m.page in k.heap[m.obj].pages
    ensures Coherent(Looked(k, p, v))
  {
    var j := Looked(k, p, v);
    forall q: nat, w: nat | q < |j.spaces| && w in j.spaces[q].ptes
      ensures EntryOk(j.heap, AtPage(j, q, w), j.spaces[q].ptes[w])
    {
      LookedEntry(k, p, v, q, w);
    }
  }

  lemma WriteCoherent(k: State, p: nat, v: nat, at: nat, bytes: seq<Byte>)
    requires Inv(k) && Coherent(k) && at + |bytes| <= PAGE_SIZE && !Stale(k, DoWrite(p, v, at, bytes))
    ensures Coherent(KernelWrite(k, p, v, at, bytes))
  {
    if View(k, p, v).Some? {
      var m := AtPage(k, p, v).value;
      var j := Looked(k, p, v);
      MappedLive(k, p, v);
      LookedCoherent(k, p, v);
      LookupWriteKeeps(k.heap, m.obj, m.page, Refs(k));
      StoreCoherent(j, m.obj, m.page, Splice(j.heap[m.obj].pages[m.page], at, bytes));
    }
  }

  /** The write puts the new page into the top object and leaves every other resident page alone. */
  lemma CopiedUp(k: State, p: nat, v: nat, at: nat, bytes: seq<Byte>)
    requires Inv(k) && at + |bytes| <= PAGE_SIZE && View(k, p, v).Some?
    ensures var j := KernelWrite(k, p, v, at, bytes);
            var m := AtPage(k, p, v).value;
            && j.spaces == k.spaces && Live(j.heap, m.obj) && m.page in j.heap[m.obj].pages
            && j.heap[m.obj].pages[m.page] == Splice(View(k, p, v).value, at, bytes)
    ensures var j := KernelWrite(k, p, v, at, bytes);
            var m := AtPage(k, p, v).value;
            forall o: nat, n: nat | o != m.obj && Live(k.heap, o) && n in k.heap[o].pages ::
              Live(j.heap, o) && n in j.heap[o].pages && j.heap[o].pages[n] == k.heap[o].pages[n]
  {
    var m := AtPage(k, p, v).value;
    MappedLive(k, p, v);
    LookupWriteKeeps(k.heap, m.obj, m.page, Refs(k));
    OthersKept(k.heap, m.obj, m.page);
    hide Inv, LookupWrite, SameView;
  }

  lemma OthersKept(h: Heap, s: nat, n: nat)
    ensures forall o: nat, k: nat | o != s && Live(h, o) && k in h[o].pages ::
              Live(LookupWrite(h, s, n).heap, o) && k in LookupWrite(h, s, n).heap[o].pages
              && LookupWrite(h, s, n).heap[o].pages[k] == h[o].pages[k]
  {
  }

  /** A page resident in the top object is shown from there. */
  lemma TopShows(k: State, p: nat, v: nat, m: Mapping)
    requires AtPage(k, p, v) == Some(m) && Live(k.heap, m.obj) && m.page in k.heap[m.obj].pages
    ensures Source(k.heap, m.obj, m.page) == m.obj && View(k, p, v) == Some(k.heap[m.obj].pages[m.page])
  {
  }

  /** After a stale write the process keeps loading the old page. */
  lemma StaleWrite(k: State, p: nat, v: nat, at: nat, bytes: seq<Byte>)
    requires Inv(k) && Coherent(k) && at + |bytes| <= PAGE_SIZE && Stale(k, DoWrite(p, v, at, bytes))
    ensures var j := KernelWrite(k, p, v, at, bytes);
            && !Coherent(j)
            && UserLoad(j, p, v) == View(k, p, v)
            && View(j, p, v) == Some(Splice(View(k, p, v).value, at, bytes))
  {
    hide Inv, KernelWrite, View, Splice;
    var j, m, e := KernelWrite(k, p, v, at, bytes), AtPage(k, p, v).value, k.spaces[p].ptes[v];
    CoherentLoads(k, p, v);
    assert EntryOk(k.heap, AtPage(k, p, v), e);
    assert e.obj != m.obj;
    CopiedUp(k, p, v, at, bytes);
    TopShows(j, p, v, m);
    assert !EntryOk(j.heap, AtPage(j, p, v), j.spaces[p].ptes[v]);
  }

  lemma StoreStepCoherent(k: State, p: nat, v: nat, at: nat, bytes: seq<Byte>)
    requires Coherent(k) && at + |bytes| <= PAGE_SIZE
    ensures Coherent(UserStore(k, p, v, at, bytes))
  {
    if CanStore(k, p, v) {
      var e := k.spaces[p].ptes[v];
      StoreCoherent(k, e.obj, e.page, Splice(k.heap[e.obj].pages[e.page], at, bytes));
    }
  }

  lemma BreaksCoherent(k: State, p: nat, start: nat, addr: nat)
    requires Coherent(k) && p < |k.spaces|
    ensures Coherent(SetBreaks(k, p, start, addr))
  {
    var j := SetBreaks(k, p, start, addr);
    forall q: nat, w: nat | q < |j.spaces| && w in j.spaces[q].ptes
      ensures EntryOk(j.heap, AtPage(j, q, w), j.spaces[q].ptes[w])
    {
      assert EntryOk(k.heap, AtPage(k, q, w), k.spaces[q].ptes[w]);
    }
  }

  lemma GrowCoherent(k: State, p: nat, i: nat, end: nat)
    requires Inv(k) && Coherent(k) && p < |k.spaces| && i < |k.spaces[p].areas|
    requires k.spaces[p].areas[i].end <= end <= USER_HIGH
    requires RangeEmpty(k.spaces[p].areas, k.spaces[p].areas[i].end, end)
    ensures Coherent(Grow(k, p, i, end))
  {
    var j := Grow(k, p, i, end);
    forall q: nat, w: nat | q < |j.spaces| && w in j.spaces[q].ptes
      ensures EntryOk(j.heap, AtPage(j, q, w), j.spaces[q].ptes[w])
    {
      assert EntryOk(k.heap, AtPage(k, q, w), k.spaces[q].ptes[w]);
      GrowAreas(k.spaces[p].areas, i, end, w);
    }
  }

  lemma BrkCoherent(k: State, p: nat, addr: nat)
    requires Inv(k) && Coherent(k) && BrkOk(k, p, addr)
    ensures Coherent(Step(k, DoBrk(p, addr)))
  {
    if addr != 0 && Brk(k, p, addr).Some? {
      var s := k.spaces[p].areas;
      var i := Find(s, k.spaces[p].startBrk / PAGE_SIZE).value;
      var prev, cur := s[i].end, PageUp(addr);
      var start := k.spaces[p].startBrk;
      if prev < cur {
        GrowCoherent(k, p, i, cur);
        BreaksCoherent(Grow(k, p, i, cur), p, start, addr);
      } else if cur < prev {
        UnmapCoherent(k, p, cur, prev);
        BreaksCoherent(Unmap(k, p, cur, prev), p, start, addr);
      } else {
        BreaksCoherent(k, p, start, addr);
      }
    }
  }

  /** From a coherent state, a step keeps the page tables coherent if and only if it is not a kernel
      write to a page whose entry names a frame below the top. */
  lemma StepCoherent(k: State, op: Op)
    requires Inv(k) && Coherent(k) && Enabled(k, op)
    ensures Coherent(Step(k, op)) <==> !Stale(k, op)
  {
    hide Inv, Coherent;
    match op
    case DoMmap(p, r) => MmapCoherent(k, p, r);
    case DoMunmap(p, lo, n) => UnmapCoherent(k, p, lo, lo + n);
    case DoFork(p) => ForkCoherent(k, p);
    case DoFault(p, v, write, exec) => FaultCoherent(k, p, v, write, exec);
    case DoRead(p, v) => ReadCoherent(k, p, v);
    case DoWrite(p, v, at, bytes) =>
      if Stale(k, op) { StaleWrite(k, p, v, at, bytes); } else { WriteCoherent(k, p, v, at, bytes); }
    case DoStore(p, v, at, bytes) => StoreStepCoherent(k, p, v, at, bytes);
    case DoLoad(p, start) => BreaksCoherent(k, p, start, start);
    case DoBrk(p, addr) => BrkCoherent(k, p, addr);
    case DoExit(p) => ExitCoherent(k, p);
  }

  /** No write of the run was stale when it happened. */
  predicate NeverStale(k: State, ops: seq<Op>) {
    ops == [] ||
    (NeverStale(k, ops[..|ops| - 1]) && !Stale(Run(k, ops[..|ops| - 1]), ops[|ops| - 1]))
  }

  lemma {:induction false} RunCoherent(stores: seq<map<nat, Page>>, ops: seq<Op>)
    requires NeverStale(Boot(stores), ops)
    ensures Coherent(Reached(stores, ops))
  {
    if ops != [] {
      var t, op := ops[..|ops| - 1], ops[|ops| - 1];
      RunCoherent(stores, t);
      RunInv(stores, t);
      if Enabled(Reached(stores, t), op) {
        StepCoherent(Reached(stores, t), op);
      }
    }
  }

  /** In every run without a stale write, loads through the page table see what the map shows. */
  lemma LoadsSeeMemory(stores: seq<map<nat, Page>>, ops: seq<Op>, p: nat, v: nat)
    requires NeverStale(Boot(stores), ops)
    requires var k := Reached(stores, ops); p < |k.spaces| && v in k.spaces[p].ptes
    ensures var k := Reached(stores, ops); UserLoad(k, p, v).Some? && UserLoad(k, p, v) == View(k, p, v)
  {
    RunCoherent(stores, ops);
    CoherentLoads(Reached(stores, ops), p, v);
  }

  /** In every run at all, a writable entry lies in a mapped page that may be written and names the
      frame resident in the object of the area itself, so the process writes what its map shows. */
  lemma WritableEntries(stores: seq<map<nat, Page>>, ops: seq<Op>, p: nat, v: nat)
    requires var k := Reached(stores, ops); p < |k.spaces| && v in k.spaces[p].ptes && k.spaces[p].ptes[v].writable
    ensures var k := Reached(stores, ops);
            && AtPage(k, p, v).Some?
            && var m := AtPage(k, p, v).value;
               var e := k.spaces[p].ptes[v];
               m.prot.write && e.obj == m.obj && e.page == m.page && UserLoad(k, p, v).Some? &&
                 UserLoad(k, p, v) == View(k, p, v)
  {
    RunInv(stores, ops);
    var k := Reached(stores, ops);
    assert PteOk(k.heap, AtPage(k, p, v), k.spaces[p].ptes[v]);
  }

  // ----- A stale write can happen -----

  const ONE_PAGE: Request := Request(USER_LOW, 1, 0, Prot(true, true, false), false, None)

  lemma MappedOne()
    ensures var k := Mmap(Boot([]), 0, ONE_PAGE);
            && MapOk(Boot([]), 0, ONE_PAGE)
            && k.heap == [Obj(2, map[], Anon), Obj(1, map[], Shadow(0, 0))]
            && AtPage(k, 0, USER_LOW) == Some(Mapping(1, 0, Prot(true, true, false), false))
            && |k.spaces| == 1 && k.spaces[0].ptes == map[]
  {
    BootInv([]);
    assert Boot([]).heap == [];
    assert RangeEmpty([], USER_LOW, USER_LOW + 1);
    AttachAt(Boot([]), 0, USER_LOW, ONE_PAGE, 0, USER_LOW);
  }

  /** A read fault on that page installs a read-only entry for the zeros of the bottom object. */
  lemma ReadOne(k: State)
    requires |k.spaces| == 1 && k.spaces[0].ptes == map[]
    requires k.heap == [Obj(2, map[], Anon), Obj(1, map[], Shadow(0, 0))]
    requires AtPage(k, 0, USER_LOW) == Some(Mapping(1, 0, Prot(true, true, false), false))
    ensures Stale(Fault(k, 0, USER_LOW, false, false), DoWrite(0, USER_LOW, 0, [1]))
  {
    hide AtPage, ZeroPage;
    var h := k.heap;
    assert Source(h, 1, 0) == Source(h, 0, 0) == 0;
    var g := [Obj(3, map[0 := ZeroPage()], Anon), Obj(1, map[], Shadow(0, 0))];
    assert LookupRead(h, 1, 0) == Found(g, Some(0));
    var j := Fault(k, 0, USER_LOW, false, false);
    assert j == SetPtes(k, 0, map[USER_LOW := Pte(0, 0, false)], g);
    assert Source(g, 1, 0) == Source(g, 0, 0) == 0;
    SamePages(k, j, USER_LOW);
  }

  lemma SamePages(k: State, j: State, v: nat)
    requires |k.spaces| == |j.spaces| == 1 && j.spaces[0].areas == k.spaces[0].areas
    ensures AtPage(j, 0, v) == AtPage(k, 0, v)
  {
  }

  lemma TwoSteps(k: State, a: Op, b: Op)
    requires Enabled(k, a) && Enabled(Step(k, a), b) && !Stale(k, a) && !Stale(Step(k, a), b)
    ensures Run(k, [a, b]) == Step(Step(k, a), b) && NeverStale(k, [a, b])
  {
    hide Step, Stale, Enabled;
    assert [a, b][..1] == [a] && [a][..0] == [];
    assert Run(k, []) == k && Run(k, [a]) == Step(k, a);
    assert NeverStale(k, []) && NeverStale(k, [a]);
  }

  /** Map a private page, read it, and let the kernel write to it: the process goes on seeing zeros. */
  lemma StaleExample()
    ensures var ops := [DoMmap(0, ONE_PAGE), DoFault(0, USER_LOW, false, false)];
            NeverStale(Boot([]), ops) && Stale(Reached([], ops), DoWrite(0, USER_LOW, 0, [1]))
  {
    MappedOne();
    hide Mmap, Fault, AtPage, Run, NeverStale;
    ReadOne(Mmap(Boot([]), 0, ONE_PAGE));
    TwoSteps(Boot([]), DoMmap(0, ONE_PAGE), DoFault(0, USER_LOW, false, false));
  }
}
