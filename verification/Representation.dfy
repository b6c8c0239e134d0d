/** How a kernel state represents a flat state. */
module Representation {
  import opened Wrappers
  import opened Areas
  import opened Objects
  import opened Overlay
  import opened Kernel
  import opened Flat
  import opened Access
  import opened Removal
  import opened Creation
  import opened Forking

  function CellOf(h: Heap, o: nat, n: nat): Cell {
    var s := Source(h, o, n);
    if IsShadow(h, s) && n in h[s].pages then Own(h[s].pages[n]) else Common(s, n)
  }

  function PageOf(k: State, p: nat, v: nat): Option<FPage> {
    match AtPage(k, p, v)
    case None => None
    case Some(m) => Some(FPage(m.prot, m.shared, CellOf(k.heap, m.obj, m.page)))
  }

  ghost predicate SimMem(k: State, f: FState) {
    |f.mem| == |k.spaces| && forall p: nat, v: nat :: FAt(f, p, v) == PageOf(k, p, v)
  }

  /** A region stands for everything the chain of a private object shows, mapped or not. */
  ghost predicate RegionIs(h: Heap, o: nat, r: Region) {
    forall n: nat :: RegionCell(r, n) == CellOf(h, o, n)
  }

  ghost predicate EntryTied(h: Heap, x: Proc, e: Entry, m: Mapping, start: Option<nat>) {
    && start == Some(e.first) && e.prot == m.prot && e.shared == m.shared && e.n == m.page
    && if m.shared then e.ref == m.obj else e.ref in x.regions && RegionIs(h, m.obj, x.regions[e.ref])
  }

  ghost predicate PageTied(k: State, f: FState, p: nat, v: nat)
    requires p < |f.mem|
  {
    match AtPage(k, p, v)
    case None => v !in f.mem[p].pages
    case Some(m) => v in f.mem[p].pages && EntryTied(k.heap, f.mem[p], f.mem[p].pages[v], m, StartAt(k, p, v))
  }

  ghost predicate SimTied(k: State, f: FState) {
    |f.mem| == |k.spaces| && forall p: nat, v: nat | p < |f.mem| :: PageTied(k, f, p, v)
  }

  /** The object of a private page. */
  function TopAt(k: State, p: nat, v: nat): Option<nat> {
    if AtPage(k, p, v).Some? && !AtPage(k, p, v).value.shared then Some(AtPage(k, p, v).value.obj) else None
  }

  function RegionAt(f: FState, p: nat, v: nat): Option<nat> {
    if p < |f.mem| && v in f.mem[p].pages && !f.mem[p].pages[v].shared then Some(f.mem[p].pages[v].ref) else None
  }

  /** Private pages of a process have one region if and only if they have one object. */
  ghost predicate SimSame(k: State, f: FState) {
    forall p: nat, v: nat, w: nat | TopAt(k, p, v).Some? && TopAt(k, p, w).Some? ::
      RegionAt(f, p, v) == RegionAt(f, p, w) <==> TopAt(k, p, v) == TopAt(k, p, w)
  }

  ghost predicate SimNames(k: State, f: FState) {
    && (forall p: nat, g | p < |f.mem| && g in f.mem[p].regions :: g < f.next)
    && (forall b | b in f.common :: b < |k.heap|)
  }

  predicate Bottom(h: Heap, b: nat) {
    Live(h, b) && !IsShadow(h, b)
  }

  ghost predicate SimObj(h: Heap, b: nat, x: FObj) {
    forall n: nat :: FHeld(x, n) == Held(h, b, n)
  }

  ghost predicate SimCommon(h: Heap, common: map<nat, FObj>) {
    forall b: nat | Bottom(h, b) :: b in common && SimObj(h, b, common[b])
  }

  /** k represents f. */
  ghost predicate Sim(k: State, f: FState) {
    SimMem(k, f) && SimTied(k, f) && SimSame(k, f) && SimNames(k, f) && SimCommon(k.heap, f.common)
  }

  /** What a process sees is what its cell holds. */
  lemma SimView(k: State, f: FState, p: nat, v: nat)
    requires Inv(k) && Sim(k, f)
    ensures View(k, p, v) == FView(f, p, v)
  {
    assert FAt(f, p, v) == PageOf(k, p, v);
    if AtPage(k, p, v).Some? {
      var m := AtPage(k, p, v).value;
      MappedLive(k, p, v);
      SourceIs(k.heap, m.obj, m.page);
      var s := Source(k.heap, m.obj, m.page);
      assert Bottom(k.heap, s) ==> SimObj(k.heap, s, f.common[s]);
    }
  }

  // ----- Ties -----

  lemma TiedOf(k: State, f: FState, p: nat, v: nat)
    requires SimTied(k, f) && p < |f.mem|
    ensures PageTied(k, f, p, v)
  {
  }

  /** A tied page shows its cell. */
  lemma TiedShows(k: State, f: FState, p: nat, v: nat)
    requires Inv(k) && p < |f.mem| == |k.spaces| && PageTied(k, f, p, v)
    ensures FAt(f, p, v) == PageOf(k, p, v)
  {
    if AtPage(k, p, v).Some? {
      MappedLive(k, p, v);
      var m := AtPage(k, p, v).value;
      hide Inv;
      if m.shared {
        assert Source(k.heap, m.obj, m.page) == m.obj;
      } else {
        var r := f.mem[p].regions[f.mem[p].pages[v].ref];
        assert RegionIs(k.heap, m.obj, r);
        assert RegionCell(r, m.page) == CellOf(k.heap, m.obj, m.page);
      }
    }
  }

  lemma MemSim(k: State, f: FState)
    requires Inv(k) && SimTied(k, f)
    ensures SimMem(k, f)
  {
    hide Inv, PageTied, PageOf, FAt;
    forall p: nat, v: nat
      ensures FAt(f, p, v) == PageOf(k, p, v)
    {
      if p < |f.mem| {
        TiedShows(k, f, p, v);
      } else {
        OutOfRange(k, f, p, v);
      }
    }
  }

  lemma OutOfRange(k: State, f: FState, p: nat, v: nat)
    requires p >= |f.mem| == |k.spaces|
    ensures FAt(f, p, v) == None && PageOf(k, p, v) == None
  {
  }

  lemma TopIsRegion(k: State, f: FState, p: nat, v: nat)
    requires SimTied(k, f) && TopAt(k, p, v).Some?
    ensures p < |f.mem| && HasRegion(f, p, v) && RegionAt(f, p, v) == Some(f.mem[p].pages[v].ref)
    ensures RegionIs(k.heap, TopAt(k, p, v).value, f.mem[p].regions[f.mem[p].pages[v].ref])
  {
    assert PageTied(k, f, p, v);
  }

  lemma SameRegion(k: State, f: FState, p: nat, v: nat, w: nat)
    requires SimSame(k, f) && TopAt(k, p, v).Some? && TopAt(k, p, w).Some?
    ensures RegionAt(f, p, v) == RegionAt(f, p, w) <==> TopAt(k, p, v) == TopAt(k, p, w)
  {
  }

  lemma RegionKept(h: Heap, g: Heap, o: nat, x: nat, r: Region)
    requires RegionIs(h, o, r) && forall n: nat :: CellOf(g, x, n) == CellOf(h, o, n)
    ensures RegionIs(g, x, r)
  {
    forall n: nat
      ensures RegionCell(r, n) == CellOf(g, x, n)
    {
      assert RegionCell(r, n) == CellOf(h, o, n);
    }
  }

  // ----- Steps that leave all cells alone -----

  ghost predicate SameCells(h: Heap, g: Heap) {
    forall o: nat, n: nat :: CellOf(g, o, n) == CellOf(h, o, n)
  }

  ghost predicate SameBottoms(h: Heap, g: Heap) {
    forall b: nat | Bottom(g, b) :: Bottom(h, b) && forall n: nat :: Held(g, b, n) == Held(h, b, n)
  }

  lemma SimCommonKept(h: Heap, g: Heap, common: map<nat, FObj>)
    requires SimCommon(h, common) && SameBottoms(h, g)
    ensures SimCommon(g, common)
  {
    forall b: nat | Bottom(g, b)
      ensures b in common && SimObj(g, b, common[b])
    {
      assert Bottom(h, b) && SimObj(h, b, common[b]);
    }
  }

  lemma FillCells(h: Heap, s: nat, n: nat)
    requires Live(h, s) && !IsShadow(h, s)
    ensures SameCells(h, Fill(h, s, n)) && SameBottoms(h, Fill(h, s, n))
  {
    var g := Fill(h, s, n);
    forall o: nat, k: nat
      ensures CellOf(g, o, k) == CellOf(h, o, k)
      ensures Held(g, o, k) == Held(h, o, k)
    {
      FillShows(h, s, n, o, k);
      FillShows(h, s, n, Source(h, o, k), k);
    }
    assert forall b: nat :: Bottom(g, b) == Bottom(h, b);
  }

  lemma LookupReadCells(h: Heap, o: nat, n: nat)
    requires Linked(h) && Live(h, o)
    ensures SameCells(h, LookupRead(h, o, n).heap) && SameBottoms(h, LookupRead(h, o, n).heap)
    ensures |LookupRead(h, o, n).heap| == |h|
  {
    SourceIs(h, o, n);
    var s := Source(h, o, n);
    if !IsShadow(h, s) {
      FillCells(h, s, n);
    }
  }

  ghost predicate SameAreas(k: State, j: State) {
    |j.spaces| == |k.spaces| && forall p: nat | p < |k.spaces| :: j.spaces[p].areas == k.spaces[p].areas
  }

  lemma SameAreasAt(k: State, j: State, p: nat, v: nat)
    requires SameAreas(k, j)
    ensures AtPage(j, p, v) == AtPage(k, p, v) && StartAt(j, p, v) == StartAt(k, p, v) &&
            TopAt(j, p, v) == TopAt(k, p, v)
  {
  }

  /** The same areas over a heap with the same cells represent the same. */
  lemma SameSim(k: State, j: State, f: FState)
    requires Sim(k, f) && SameAreas(k, j) && |j.heap| >= |k.heap|
    requires SameCells(k.heap, j.heap) && SameBottoms(k.heap, j.heap)
    ensures Sim(j, f)
  {
    SimCommonKept(k.heap, j.heap, f.common);
    forall p: nat, v: nat
      ensures FAt(f, p, v) == PageOf(j, p, v)
      ensures p < |f.mem| ==> PageTied(j, f, p, v)
      ensures TopAt(j, p, v) == TopAt(k, p, v)
    {
      SameTied(k, j, f, p, v);
    }
    hide PageTied, PageOf, FAt, SameCells, SameBottoms, SimCommon, RegionAt, TopAt;
    SameSame(k, j, f);
  }

  lemma SameTied(k: State, j: State, f: FState, p: nat, v: nat)
    requires SimMem(k, f) && SimTied(k, f) && SameAreas(k, j) && SameCells(k.heap, j.heap)
    ensures FAt(f, p, v) == PageOf(j, p, v)
    ensures p < |f.mem| ==> PageTied(j, f, p, v)
    ensures TopAt(j, p, v) == TopAt(k, p, v)
  {
    SameAreasAt(k, j, p, v);
    assert FAt(f, p, v) == PageOf(k, p, v);
    if p < |f.mem| && AtPage(k, p, v).Some? {
      TiedOf(k, f, p, v);
      hide SimTied, SimMem;
      var m, e := AtPage(k, p, v).value, f.mem[p].pages[v];
      if !m.shared {
        RegionKept(k.heap, j.heap, m.obj, m.obj, f.mem[p].regions[e.ref]);
      }
    }
  }

  lemma SameSame(k: State, j: State, f: FState)
    requires SimSame(k, f) && forall p: nat, v: nat :: TopAt(j, p, v) == TopAt(k, p, v)
    ensures SimSame(j, f)
  {
  }

  lemma SameHeapCells(h: Heap)
    ensures SameCells(h, h) && SameBottoms(h, h)
  {
  }

  lemma KernelReadSim(k: State, f: FState, p: nat, v: nat)
    requires Inv(k) && Sim(k, f)
    ensures Sim(KernelRead(k, p, v), f)
  {
    if AtPage(k, p, v).Some? {
      var m := AtPage(k, p, v).value;
      MappedLive(k, p, v);
      LookupReadCells(k.heap, m.obj, m.page);
      hide Inv, Sim, LookupRead, SameCells, SameBottoms;
      SameSim(k, KernelRead(k, p, v), f);
    }
  }

  lemma SetPtesSim(k: State, f: FState, p: nat, ptes: map<nat, Pte>)
    requires Sim(k, f) && p < |k.spaces|
    ensures Sim(SetPtes(k, p, ptes, k.heap), f)
  {
    hide Sim, SameCells, SameBottoms;
    SameHeapCells(k.heap);
    SameSim(k, SetPtes(k, p, ptes, k.heap), f);
  }

  lemma SetBreaksSim(k: State, f: FState, p: nat, start: nat, addr: nat)
    requires Sim(k, f) && p < |k.spaces|
    ensures Sim(SetBreaks(k, p, start, addr), f)
  {
    hide Sim, SameCells, SameBottoms;
    SameHeapCells(k.heap);
    SameSim(k, SetBreaks(k, p, start, addr), f);
  }

  // ----- Removal -----

  lemma ShrunkCells(h: Heap, g: Heap, o: nat, n: nat)
    requires Shrunk(h, g) && Linked(g) && Live(g, o)
    ensures CellOf(g, o, n) == CellOf(h, o, n)
  {
    ShrunkShows(h, g, o, n);
  }

  lemma ShrunkRegion(k: State, j: State, q: nat, v: nat, r: Region)
    requires Shrunk(k.heap, j.heap) && Inv(j) && AtPage(j, q, v).Some? && RegionIs(k.heap, AtPage(j, q, v).value.obj, r)
    ensures RegionIs(j.heap, AtPage(j, q, v).value.obj, r)
  {
    var o := AtPage(j, q, v).value.obj;
    MappedLive(j, q, v);
    forall n: nat
      ensures CellOf(j.heap, o, n) == CellOf(k.heap, o, n)
    {
      ShrunkCells(k.heap, j.heap, o, n);
    }
    RegionKept(k.heap, j.heap, o, o, r);
  }

  lemma ShrunkBottoms(h: Heap, g: Heap)
    requires Shrunk(h, g)
    ensures SameBottoms(h, g)
  {
  }

  /** Where a page keeps its mapping, its entry stays tied, up to the start of its area. */
  lemma ShrunkTied(k: State, f: FState, j: State, g: FState, q: nat, v: nat)
    requires SimTied(k, f) && Inv(j) && Shrunk(k.heap, j.heap) && q < |f.mem| == |g.mem|
    requires AtPage(j, q, v) == AtPage(k, q, v) && g.mem[q].regions == f.mem[q].regions
    requires v in g.mem[q].pages <==> v in f.mem[q].pages
    requires v in g.mem[q].pages ==> StartAt(j, q, v) == Some(g.mem[q].pages[v].first) &&
                                     WithFirst(g.mem[q].pages[v], 0) == WithFirst(f.mem[q].pages[v], 0)
    ensures PageTied(j, g, q, v)
  {
    TiedOf(k, f, q, v);
    hide Inv, SimTied, Shrunk;
    if AtPage(k, q, v).Some? && !AtPage(k, q, v).value.shared {
      ShrunkRegion(k, j, q, v, f.mem[q].regions[f.mem[q].pages[v].ref]);
    }
  }

  /** Fewer pages, with the same regions and objects, stay told apart. */
  lemma FewerSame(k: State, f: FState, j: State, g: FState)
    requires SimSame(k, f)
    requires forall p: nat, v: nat | TopAt(j, p, v).Some? ::
               TopAt(j, p, v) == TopAt(k, p, v) && RegionAt(g, p, v) == RegionAt(f, p, v)
    ensures SimSame(j, g)
  {
    hide TopAt, RegionAt;
    forall p: nat, v: nat, w: nat | TopAt(j, p, v).Some? && TopAt(j, p, w).Some?
      ensures RegionAt(g, p, v) == RegionAt(g, p, w) <==> TopAt(j, p, v) == TopAt(j, p, w)
    {
      SameRegion(k, f, p, v, w);
    }
  }

  lemma UnmapTied(k: State, f: FState, p: nat, lo: nat, hi: nat, q: nat, v: nat)
    requires Inv(k) && SimTied(k, f) && p < |k.spaces| && lo <= hi && q < |k.spaces| && Inv(Unmap(k, p, lo, hi))
    requires Shrunk(k.heap, Unmap(k, p, lo, hi).heap)
    ensures PageTied(Unmap(k, p, lo, hi), FStep(f, FUnmap(p, lo, hi)), q, v)
    ensures TopAt(Unmap(k, p, lo, hi), q, v).Some? ==>
              && TopAt(Unmap(k, p, lo, hi), q, v) == TopAt(k, q, v)
              && RegionAt(FStep(f, FUnmap(p, lo, hi)), q, v) == RegionAt(f, q, v)
  {
    var j, g := Unmap(k, p, lo, hi), FStep(f, FUnmap(p, lo, hi));
    SortedOf(k, p);
    UnmapAt(k, p, lo, hi, q, v);
    TiedOf(k, f, q, v);
    hide Inv, Shrunk, SimTied, Unmap, Sorted;
    if !(q == p && lo <= v < hi) {
      assert v in f.mem[q].pages ==> StartAt(k, q, v) == Some(f.mem[q].pages[v].first);
      ShrunkTied(k, f, j, g, q, v);
    }
  }

  lemma UnmapSim(k: State, f: FState, p: nat, lo: nat, hi: nat)
    requires Inv(k) && Sim(k, f) && p < |k.spaces| && lo <= hi
    ensures Sim(Unmap(k, p, lo, hi), FStep(f, FUnmap(p, lo, hi)))
  {
    hide Inv, SimMem, SimSame, SimCommon, SameBottoms, PageTied, TopAt, RegionAt, UnmapPages;
    var j, g := Unmap(k, p, lo, hi), FStep(f, FUnmap(p, lo, hi));
    UnmapInv(k, p, lo, hi);
    UnmapValid(k, p, lo, hi);
    ShrunkBottoms(k.heap, j.heap);
    SimCommonKept(k.heap, j.heap, f.common);
    assert |j.spaces| == |k.spaces| && |j.heap| == |k.heap|;
    hide Unmap, Shrunk;
    forall q: nat, v: nat
      ensures q < |g.mem| ==> PageTied(j, g, q, v)
      ensures TopAt(j, q, v).Some? ==> TopAt(j, q, v) == TopAt(k, q, v) && RegionAt(g, q, v) == RegionAt(f, q, v)
    {
      if q < |k.spaces| { UnmapTied(k, f, p, lo, hi, q, v); } else { NoTop(j, q, v); }
    }
    FewerSame(k, f, j, g);
    MemSim(j, g);
  }

  lemma NoTop(k: State, p: nat, v: nat)
    requires p >= |k.spaces|
    ensures TopAt(k, p, v) == None
  {
  }

  lemma ExitTied(k: State, f: FState, p: nat, q: nat, v: nat)
    requires Inv(k) && SimTied(k, f) && p < |k.spaces| && q < |k.spaces| && Inv(Exit(k, p)) &&
             Shrunk(k.heap, Exit(k, p).heap)
    ensures PageTied(Exit(k, p), FStep(f, FExit(p)), q, v)
    ensures TopAt(Exit(k, p), q, v).Some? ==>
              TopAt(Exit(k, p), q, v) == TopAt(k, q, v) && RegionAt(FStep(f, FExit(p)), q, v) == RegionAt(f, q, v)
  {
    var j, g := Exit(k, p), FStep(f, FExit(p));
    if q != p {
      TiedOf(k, f, q, v);
      hide Inv, Shrunk, SimTied, PutAll;
      ShrunkTied(k, f, j, g, q, v);
    }
  }

  lemma ExitSim(k: State, f: FState, p: nat)
    requires Inv(k) && Sim(k, f) && p < |k.spaces|
    ensures Sim(Exit(k, p), FStep(f, FExit(p)))
  {
    hide Inv, SimMem, SimSame, SimCommon, SameBottoms, PageTied, TopAt, RegionAt;
    var j, g := Exit(k, p), FStep(f, FExit(p));
    ExitInv(k, p);
    ExitValid(k, p);
    ShrunkBottoms(k.heap, j.heap);
    SimCommonKept(k.heap, j.heap, f.common);
    assert |j.spaces| == |k.spaces| && |j.heap| == |k.heap|;
    hide Exit, Shrunk;
    forall q: nat, v: nat
      ensures q < |g.mem| ==> PageTied(j, g, q, v)
      ensures TopAt(j, q, v).Some? ==> TopAt(j, q, v) == TopAt(k, q, v) && RegionAt(g, q, v) == RegionAt(f, q, v)
    {
      if q < |k.spaces| { ExitTied(k, f, p, q, v); } else { NoTop(j, q, v); }
    }
    FewerSame(k, f, j, g);
    MemSim(j, g);
  }

  // ----- mmap -----

  lemma ExtendsCells(h: Heap, g: Heap, o: nat, n: nat)
    requires Extends(h, g) && Linked(h) && Live(h, o)
    ensures CellOf(g, o, n) == CellOf(h, o, n)
  {
    ExtendsShows(h, g, o, n);
  }

  /** Old private objects keep their regions when objects are added. */
  lemma ExtendsRegion(k: State, g: Heap, q: nat, v: nat, r: Region)
    requires Inv(k) && Extends(k.heap, g) && AtPage(k, q, v).Some? && RegionIs(k.heap, AtPage(k, q, v).value.obj, r)
    ensures RegionIs(g, AtPage(k, q, v).value.obj, r)
  {
    var o := AtPage(k, q, v).value.obj;
    MappedLive(k, q, v);
    assert Linked(k.heap);
    hide Inv, Extends, Linked;
    forall n: nat
      ensures CellOf(g, o, n) == CellOf(k.heap, o, n)
    {
      ExtendsCells(k.heap, g, o, n);
    }
    RegionKept(k.heap, g, o, o, r);
  }

  /** A fresh mapping shows the pages of its bottom object. */
  lemma MakeObjCells(h: Heap, r: Request, m: multiset<nat>, n: nat)
    requires Valid(h, m) && (r.file.Some? ==> IsFile(h, r.file.value))
    ensures CellOf(MakeObj(h, r).heap, MakeObj(h, r).obj, n) == Common(ObjectFor(r, |h|), n)
  {
    MakeBottomKeeps(h, r.file, m);
    var g := MakeObj(h, r);
    var b := MakeBottom(h, r.file);
    if !r.shared {
      assert Source(g.heap, g.obj, n) == Source(g.heap, b.obj, n);
    }
    assert Source(g.heap, b.obj, n) == b.obj;
  }

  lemma MakeObjRegion(k: State, r: Request)
    requires Inv(k) && (r.file.Some? ==> IsFile(k.heap, r.file.value))
    ensures RegionIs(MakeObj(k.heap, r).heap, MakeObj(k.heap, r).obj, Region(ObjectFor(r, |k.heap|), map[]))
  {
    assert Valid(k.heap, Refs(k));
    hide Inv, Valid, MakeObj, CellOf;
    forall n: nat
      ensures RegionCell(Region(ObjectFor(r, |k.heap|), map[]), n) == CellOf(MakeObj(k.heap, r).heap,
              MakeObj(k.heap, r).obj, n)
    {
      MakeObjCells(k.heap, r, Refs(k), n);
    }
  }

  lemma MakeObjBottoms(h: Heap, r: Request, common: map<nat, FObj>)
    requires SimCommon(h, common) && (r.file.Some? ==> IsFile(h, r.file.value))
    ensures SimCommon(MakeObj(h, r).heap, if r.file.None? then common[|h| := FObj(map[], None)] else common)
  {
    var g := MakeObj(h, r).heap;
    var c := if r.file.None? then common[|h| := FObj(map[], None)] else common;
    forall b: nat | Bottom(g, b)
      ensures b in c && SimObj(g, b, c[b])
    {
      if b < |h| {
        assert Bottom(h, b) && SimObj(h, b, common[b]);
        assert forall n: nat :: Held(g, b, n) == Held(h, b, n);
      }
    }
  }

  lemma AttachTied(k: State, f: FState, p: nat, l: nat, r: Request, q: nat, v: nat)
    requires Inv(k) && SimTied(k, f) && SimNames(k, f) && Room(k, p, l, r) && q < |k.spaces|
    ensures PageTied(Attach(k, p, l, r), MapPages(f, p, l, r, |k.heap|), q, v)
  {
    var j, g := Attach(k, p, l, r), MapPages(f, p, l, r, |k.heap|);
    AllSortedOf(k);
    AttachAt(k, p, l, r, q, v);
    TiedOf(k, f, q, v);
    hide AllSorted, SimTied, Insert, RangeEmpty, RegionIs;
    if q == p && l <= v < l + r.n {
      hide Inv, SimNames, Room;
      AttachedTied(k, f, p, l, r, v);
    } else if AtPage(k, q, v).Some? {
      MakeObjKeeps(k.heap, r, Refs(k));
      hide Inv, MakeObj;
      var m, e := AtPage(k, q, v).value, f.mem[q].pages[v];
      if !m.shared { ExtendsRegion(k, j.heap, q, v, f.mem[q].regions[e.ref]); }
    }
  }

  lemma AttachedTied(k: State, f: FState, p: nat, l: nat, r: Request, v: nat)
    requires Inv(k) && Room(k, p, l, r) && p < |f.mem| == |k.spaces| && l <= v < l + r.n
    ensures PageTied(Attach(k, p, l, r), MapPages(f, p, l, r, |k.heap|), p, v)
  {
    AllSortedOf(k);
    AttachAt(k, p, l, r, p, v);
    hide Inv, AllSorted, Insert, RangeEmpty, RegionIs;
    MakeObjRegion(k, r);
    if r.shared { SharedIsBottom(k.heap, r); }
  }

  lemma SharedIsBottom(h: Heap, r: Request)
    requires r.shared
    ensures MakeObj(h, r).obj == ObjectFor(r, |h|)
  {
  }

  lemma AllSortedOf(k: State)
    requires Inv(k)
    ensures AllSorted(k)
  {
  }

  lemma AttachRegions(k: State, f: FState, p: nat, l: nat, r: Request, q: nat, v: nat)
    requires Inv(k) && SimTied(k, f) && Room(k, p, l, r)
    ensures var j, g := Attach(k, p, l, r), MapPages(f, p, l, r, |k.heap|);
            if q == p && l <= v < l + r.n then
              TopAt(j, q, v).Some? ==>
                TopAt(j, q, v) == Some(MakeObj(k.heap, r).obj) && RegionAt(g, q, v) == Some(f.next)
            else TopAt(j, q, v) == TopAt(k, q, v) && RegionAt(g, q, v) == RegionAt(f, q, v)
  {
    AllSortedOf(k);
    AttachAt(k, p, l, r, q, v);
  }

  /** Old tops are neither the new object nor in the new region. */
  lemma OldTops(k: State, f: FState, r: Request, q: nat, v: nat)
    requires Inv(k) && SimTied(k, f) && SimNames(k, f) && TopAt(k, q, v).Some? && (r.file.Some? ==>
             IsFile(k.heap, r.file.value))
    ensures TopAt(k, q, v) != Some(MakeObj(k.heap, r).obj) && RegionAt(f, q, v) != Some(f.next)
  {
    TopIsRegion(k, f, q, v);
    MappedLive(k, q, v);
    MakeObjFresh(k.heap, r, Refs(k));
  }

  lemma AttachSame(k: State, f: FState, p: nat, l: nat, r: Request)
    requires Inv(k) && Sim(k, f) && Room(k, p, l, r)
    ensures SimSame(Attach(k, p, l, r), MapPages(f, p, l, r, |k.heap|))
  {
    var j, g := Attach(k, p, l, r), MapPages(f, p, l, r, |k.heap|);
    hide Inv, SimMem, SimTied, SimNames, SimCommon, RangeEmpty, TopAt, RegionAt, MakeObj, Attach, MapPages;
    forall q: nat, v: nat, w: nat | TopAt(j, q, v).Some? && TopAt(j, q, w).Some?
      ensures RegionAt(g, q, v) == RegionAt(g, q, w) <==> TopAt(j, q, v) == TopAt(j, q, w)
    {
      AttachRegions(k, f, p, l, r, q, v);
      AttachRegions(k, f, p, l, r, q, w);
      if TopAt(k, q, v).Some? { OldTops(k, f, r, q, v); }
      if TopAt(k, q, w).Some? { OldTops(k, f, r, q, w); }
    }
  }

  lemma AttachSim(k: State, f: FState, p: nat, l: nat, r: Request)
    requires Inv(k) && Sim(k, f) && Room(k, p, l, r)
    ensures FOpOk(f, FMap(p, l, r, |k.heap|))
    ensures Sim(Attach(k, p, l, r), FStep(f, FMap(p, l, r, |k.heap|)))
  {
    hide Inv, SimMem, SimSame, SimCommon, PageTied, RangeEmpty, NewPages;
    var j, g := Attach(k, p, l, r), MapPages(f, p, l, r, |k.heap|);
    AttachSame(k, f, p, l, r);
    MakeObjBottoms(k.heap, r, f.common);
    AttachInv(k, p, l, r);
    AttachSize(k, p, l, r);
    forall q: nat, v: nat | q < |g.mem|
      ensures PageTied(j, g, q, v)
    {
      AttachTied(k, f, p, l, r, q, v);
    }
    hide Insert, MakeObj;
    MemSim(j, g);
  }

  lemma AttachSize(k: State, p: nat, l: nat, r: Request)
    requires Inv(k) && Room(k, p, l, r)
    ensures |Attach(k, p, l, r).heap| >= |k.heap| && (r.file.None? ==> |Attach(k, p, l, r).heap| > |k.heap|)
  {
  }

  // ----- Touching and writing a page -----

  /** A private object is shown by one process only. */
  lemma OneOwner(k: State, p: nat, v: nat, q: nat, w: nat)
    requires Inv(k) && AtPage(k, p, v).Some? && AtPage(k, q, w).Some? && !AtPage(k, p, v).value.shared
    requires AtPage(k, q, w).value.obj == AtPage(k, p, v).value.obj
    ensures q == p && !AtPage(k, q, w).value.shared
    ensures AtPage(k, q, w).value.page == AtPage(k, p, v).value.page ==> w == v
  {
    var a := k.spaces[p].areas[Find(k.spaces[p].areas, v).value];
    var b := k.spaces[q].areas[Find(k.spaces[q].areas, w).value];
    assert HasArea(k, p, a) && HasArea(k, q, b);
  }

  /** Each page of a top object is shown at one place only. */
  lemma OnePlace(k: State, p: nat, v: nat, q: nat, w: nat)
    requires Inv(k) && AtPage(k, p, v).Some? && AtPage(k, q, w).Some? && !AtPage(k, p, v).value.shared
    requires AtPage(k, q, w).value.obj == AtPage(k, p, v).value.obj
    requires AtPage(k, q, w).value.page == AtPage(k, p, v).value.page
    ensures q == p && w == v
  {
    hide Inv;
    OneOwner(k, p, v, q, w);
  }

  /** A lookup for writing on a top object gives that page, and no other, a cell of its own. */
  lemma LookupWriteCells(h: Heap, s: nat, n: nat, o: nat, k: nat)
    requires Linked(h) && IsShadow(h, s) && Unshadowed(h, s) && Content(h, s, n).Some?
    ensures CellOf(LookupWrite(h, s, n).heap, o, k) ==
            if o == s && k == n then Own(Content(h, s, n).value) else CellOf(h, o, k)
  {
    SourceIs(h, s, n);
    if n !in h[s].pages {
      var b := Source(h, s, n);
      var g := Fill(h, b, n);
      if !IsShadow(h, b) { FillCells(h, b, n); }
      assert CellOf(g, o, k) == CellOf(h, o, k);
      var x := AddPage(g, s, n, Content(h, s, n).value)[s];
      if o != s {
        assert Unshadowed(g, s);
        TopIsPrivate(g, s, x, o, k);
      } else if k != n && k !in g[s].pages && g[s].kind.shadowed < s {
        TopIsPrivate(g, s, x, g[s].kind.shadowed, k);
      }
    }
  }

  lemma LookupWriteBottoms(h: Heap, o: nat, n: nat)
    requires Linked(h) && Live(h, o)
    ensures SameBottoms(h, LookupWrite(h, o, n).heap) && |LookupWrite(h, o, n).heap| == |h|
  {
    SourceIs(h, o, n);
    var s := Source(h, o, n);
    if !IsShadow(h, s) { FillCells(h, s, n); }
    assert forall b: nat :: Bottom(LookupWrite(h, o, n).heap, b) ==> Bottom(h, b);
    forall b: nat, k: nat | Bottom(h, b)
      ensures Held(LookupWrite(h, o, n).heap, b, k) == Held(h, b, k)
    {
      if !IsShadow(h, s) { FillShows(h, s, n, b, k); }
    }
  }

  /** The cells of g are those of h, but for page n of object s, which is private with contents c. */
  ghost predicate CellSet(h: Heap, g: Heap, s: nat, n: nat, c: Page) {
    forall o: nat, k: nat :: CellOf(g, o, k) == if o == s && k == n then Own(c) else CellOf(h, o, k)
  }

  lemma SetRegion(h: Heap, g: Heap, s: nat, n: nat, c: Page, r: Region)
    requires CellSet(h, g, s, n, c) && RegionIs(h, s, r)
    ensures RegionIs(g, s, Region(r.base, r.own[n := c]))
  {
    forall k: nat
      ensures RegionCell(Region(r.base, r.own[n := c]), k) == CellOf(g, s, k)
    {
      assert RegionCell(r, k) == CellOf(h, s, k);
    }
  }

  lemma SetOther(h: Heap, g: Heap, s: nat, n: nat, c: Page, o: nat, r: Region)
    requires CellSet(h, g, s, n, c) && RegionIs(h, o, r) && o != s
    ensures RegionIs(g, o, r)
  {
    RegionKept(h, g, o, o, r);
  }

  lemma SetOwnTied(k: State, f: FState, p: nat, v: nat, h: Heap, c: Page, q: nat, w: nat)
    requires Inv(k) && SimTied(k, f) && SimSame(k, f) && TopAt(k, p, v).Some? && q < |f.mem| && HasRegion(f, p, v)
    requires CellSet(k.heap, h, AtPage(k, p, v).value.obj, AtPage(k, p, v).value.page, c)
    ensures PageTied(State(h, k.spaces, k.files), SetOwn(f, p, v, c), q, w)
  {
    var j, g, m := State(h, k.spaces, k.files), SetOwn(f, p, v, c), AtPage(k, p, v).value;
    assert AtPage(j, q, w) == AtPage(k, q, w) && StartAt(j, q, w) == StartAt(k, q, w);
    TiedOf(k, f, q, w);
    TiedOf(k, f, p, v);
    hide SimTied, CellSet, RegionIs;
    if TopAt(k, q, w).Some? {
      var e := f.mem[q].pages[w];
      if TopAt(k, q, w).value == m.obj {
        OneOwner(k, p, v, q, w);
        SameRegion(k, f, p, v, w);
        SetRegion(k.heap, h, m.obj, m.page, c, f.mem[p].regions[e.ref]);
      } else {
        SetOther(k.heap, h, m.obj, m.page, c, TopAt(k, q, w).value, f.mem[q].regions[e.ref]);
        if q == p { SameRegion(k, f, p, v, w); }
      }
    }
  }

  /** Giving one private page contents of its own is giving its region that page. */
  lemma SetOwnSim(k: State, f: FState, p: nat, v: nat, h: Heap, c: Page)
    requires Inv(k) && Sim(k, f) && TopAt(k, p, v).Some? && Inv(State(h, k.spaces, k.files))
    requires CellSet(k.heap, h, AtPage(k, p, v).value.obj, AtPage(k, p, v).value.page, c)
    requires SameBottoms(k.heap, h) && |h| == |k.heap|
    ensures HasRegion(f, p, v) && Sim(State(h, k.spaces, k.files), SetOwn(f, p, v, c))
  {
    var j := State(h, k.spaces, k.files);
    TopIsRegion(k, f, p, v);
    var g := SetOwn(f, p, v, c);
    SimCommonKept(k.heap, h, f.common);
    SetNames(k, f, p, v, h, c);
    hide Inv, SimMem, SimNames, SimCommon, CellSet, SameBottoms, PageTied;
    forall q: nat, w: nat | q < |g.mem|
      ensures PageTied(j, g, q, w)
    {
      SetOwnTied(k, f, p, v, h, c, q, w);
    }
    forall q: nat, w: nat
      ensures TopAt(j, q, w) == TopAt(k, q, w) && RegionAt(g, q, w) == RegionAt(f, q, w)
    {
    }
    hide TopAt, RegionAt, SetOwn;
    FewerSame(k, f, j, g);
    MemSim(j, g);
  }

  lemma SetNames(k: State, f: FState, p: nat, v: nat, h: Heap, c: Page)
    requires SimNames(k, f) && HasRegion(f, p, v) && |h| == |k.heap|
    ensures SimNames(State(h, k.spaces, k.files), SetOwn(f, p, v, c))
    ensures |SetOwn(f, p, v, c).mem| == |f.mem| && SetOwn(f, p, v, c).common == f.common
  {
  }

  /** The state after the lookup a write fault or a write begins with. */
  function Looked(k: State, p: nat, v: nat): State {
    match AtPage(k, p, v)
    case None => k
    case Some(m) => State(LookupWrite(k.heap, m.obj, m.page).heap, k.spaces, k.files)
  }

  lemma TopOf(k: State, p: nat, v: nat)
    requires Inv(k) && AtPage(k, p, v).Some? && !AtPage(k, p, v).value.shared
    ensures IsShadow(k.heap, AtPage(k, p, v).value.obj) && Unshadowed(k.heap, AtPage(k, p, v).value.obj)
  {
    MappedLive(k, p, v);
    var a := k.spaces[p].areas[Find(k.spaces[p].areas, v).value];
    assert HasArea(k, p, a);
  }

  lemma LookedCells(k: State, p: nat, v: nat)
    requires Inv(k) && TopAt(k, p, v).Some? && View(k, p, v).Some?
    ensures CellSet(k.heap, Looked(k, p, v).heap, AtPage(k, p, v).value.obj, AtPage(k, p, v).value.page, View(k, p,
            v).value)
  {
    var m := AtPage(k, p, v).value;
    TopOf(k, p, v);
    assert Linked(k.heap);
    hide Inv, Linked, CellOf, LookupWrite;
    forall o: nat, n: nat
      ensures CellOf(Looked(k, p, v).heap, o, n) ==
              if o == m.obj && n == m.page then Own(View(k, p, v).value) else CellOf(k.heap, o, n)
    {
      LookupWriteCells(k.heap, m.obj, m.page, o, n);
    }
  }

  lemma LookedNone(k: State, p: nat, v: nat)
    requires AtPage(k, p, v).None? || View(k, p, v).None?
    ensures Looked(k, p, v) == k
  {
  }

  lemma SharedNoRegion(k: State, f: FState, p: nat, v: nat)
    requires SimTied(k, f) && TopAt(k, p, v).None?
    ensures !HasRegion(f, p, v) && Touch(f, p, v) == f
  {
    if p < |f.mem| { TiedOf(k, f, p, v); }
  }

  lemma TouchShared(k: State, f: FState, p: nat, v: nat)
    requires Inv(k) && Sim(k, f) && AtPage(k, p, v).Some? && AtPage(k, p, v).value.shared
    ensures Sim(Looked(k, p, v), f)
  {
    var m := AtPage(k, p, v).value;
    MappedLive(k, p, v);
    FillCells(k.heap, m.obj, m.page);
    SameHeapCells(k.heap);
    hide Inv, Sim, SameCells, SameBottoms;
    SameSim(k, Looked(k, p, v), f);
  }

  lemma TouchSim(k: State, f: FState, p: nat, v: nat)
    requires Inv(k) && Sim(k, f)
    ensures Sim(Looked(k, p, v), Touch(f, p, v))
  {
    SimView(k, f, p, v);
    if View(k, p, v).None? {
      LookedNone(k, p, v);
    } else if TopAt(k, p, v).None? {
      SharedNoRegion(k, f, p, v);
      TouchShared(k, f, p, v);
    } else {
      var m := AtPage(k, p, v).value;
      MappedLive(k, p, v);
      TouchInv(k, p, v);
      LookupWriteBottoms(k.heap, m.obj, m.page);
      LookedCells(k, p, v);
      hide Inv, Sim, CellSet, SameBottoms, LookupWrite, View;
      SetOwnSim(k, f, p, v, Looked(k, p, v).heap, View(k, p, v).value);
    }
  }

  lemma StoreTopCells(g: Heap, s: nat, n: nat, c: Page, o: nat, k: nat)
    requires Linked(g) && IsShadow(g, s) && Unshadowed(g, s) && n in g[s].pages
    ensures CellOf(StorePage(g, s, n, c), o, k) == if o == s && k == n then Own(c) else CellOf(g, o, k)
  {
    var x := StorePage(g, s, n, c)[s];
    if o != s {
      TopIsPrivate(g, s, x, o, k);
    } else if k != n && k !in g[s].pages && g[s].kind.shadowed < s {
      TopIsPrivate(g, s, x, g[s].kind.shadowed, k);
    }
  }

  lemma StoreTopSet(k: State, p: nat, v: nat, c: Page)
    requires Inv(k) && TopAt(k, p, v).Some?
    requires var m := AtPage(k, p, v).value; Live(k.heap, m.obj) && m.page in k.heap[m.obj].pages
    ensures var m := AtPage(k, p, v).value;
            && CellSet(k.heap, StorePage(k.heap, m.obj, m.page, c), m.obj, m.page, c)
            && SameBottoms(k.heap, StorePage(k.heap, m.obj, m.page, c))
  {
    var m := AtPage(k, p, v).value;
    TopOf(k, p, v);
    assert Linked(k.heap);
    hide Inv, Linked, CellOf;
    forall o: nat, n: nat
      ensures CellOf(StorePage(k.heap, m.obj, m.page, c), o, n) ==
              if o == m.obj && n == m.page then Own(c) else CellOf(k.heap, o, n)
    {
      StoreTopCells(k.heap, m.obj, m.page, c, o, n);
    }
  }

  lemma StoreTopSim(k: State, f: FState, p: nat, v: nat, m: Mapping, c: Page)
    requires Inv(k) && Sim(k, f) && AtPage(k, p, v) == Some(m) && !m.shared
    requires Live(k.heap, m.obj) && m.page in k.heap[m.obj].pages
    ensures HasRegion(f, p, v)
    ensures Sim(State(StorePage(k.heap, m.obj, m.page, c), k.spaces, k.files), SetOwn(f, p, v, c))
  {
    hide Inv, Sim, CellSet, SameBottoms;
    StoreTopSet(k, p, v, c);
    StoreInv(k, m.obj, m.page, c);
    SetOwnSim(k, f, p, v, StorePage(k.heap, m.obj, m.page, c), c);
  }

  lemma StoreBottomCells(h: Heap, b: nat, n: nat, c: Page)
    requires Bottom(h, b) && n in h[b].pages
    ensures SameCells(h, StorePage(h, b, n, c))
  {
    forall o: nat, k: nat
      ensures CellOf(StorePage(h, b, n, c), o, k) == CellOf(h, o, k)
    {
      StoreShows(h, b, n, c, o, k);
    }
  }

  /** A store into a bottom object moves no cell and changes one page of that object. */
  lemma StoreBottomSim(k: State, f: FState, b: nat, n: nat, c: Page)
    requires Sim(k, f) && Bottom(k.heap, b) && n in k.heap[b].pages && b in f.common
    ensures Sim(State(StorePage(k.heap, b, n, c), k.spaces, k.files),
                FState(f.mem, f.next, f.common[b := FObj(f.common[b].written[n := c], f.common[b].file)]))
  {
    var j := State(StorePage(k.heap, b, n, c), k.spaces, k.files);
    var common := f.common[b := FObj(f.common[b].written[n := c], f.common[b].file)];
    var g := FState(f.mem, f.next, common);
    forall x: nat | Bottom(j.heap, x)
      ensures x in common && SimObj(j.heap, x, common[x])
    {
      StoreBottomObj(k.heap, f.common, b, n, c, x);
    }
    StoreBottomCells(k.heap, b, n, c);
    StoreBottomTies(k, f, j, g);
  }

  /** Ties depend on the cells and on the memory of processes, not on common objects. */
  lemma StoreBottomTies(k: State, f: FState, j: State, g: FState)
    requires SimMem(k, f) && SimTied(k, f) && SimSame(k, f) && SimNames(k, f) && SameAreas(k, j) &&
             SameCells(k.heap, j.heap)
    requires g.mem == f.mem && g.next == f.next && g.common.Keys == f.common.Keys && |j.heap| == |k.heap|
    ensures SimMem(j, g) && SimTied(j, g) && SimSame(j, g) && SimNames(j, g)
  {
    forall p: nat, v: nat
      ensures FAt(g, p, v) == PageOf(j, p, v)
      ensures p < |g.mem| ==> PageTied(j, g, p, v)
      ensures TopAt(j, p, v) == TopAt(k, p, v) && RegionAt(g, p, v) == RegionAt(f, p, v)
    {
      SameTied(k, j, f, p, v);
    }
    hide PageTied, PageOf, FAt, SameCells, RegionAt, TopAt;
    FewerSame(k, f, j, g);
  }

  lemma StoreBottomObj(h: Heap, common: map<nat, FObj>, b: nat, n: nat, c: Page, x: nat)
    requires SimCommon(h, common) && Bottom(h, b) && n in h[b].pages && b in common
    requires Bottom(StorePage(h, b, n, c), x)
    ensures x in common
    ensures SimObj(StorePage(h, b, n, c), x, if x == b then FObj(common[b].written[n := c],
            common[b].file) else common[x])
  {
    assert Bottom(h, x) && SimObj(h, x, common[x]);
    var y := if x == b then FObj(common[b].written[n := c], common[b].file) else common[x];
    forall i: nat
      ensures FHeld(y, i) == Held(StorePage(h, b, n, c), x, i)
    {
      assert FHeld(common[x], i) == Held(h, x, i);
    }
  }

  lemma SetTwice(f: FState, p: nat, v: nat, c: Page, d: Page)
    requires HasRegion(f, p, v)
    ensures HasRegion(SetOwn(f, p, v, c), p, v) && SetOwn(SetOwn(f, p, v, c), p, v, d) == SetOwn(f, p, v, d)
  {
    var g := SetOwn(f, p, v, c);
    var e := f.mem[p].pages[v];
    assert f.mem[p].regions[e.ref].own[e.n := c][e.n := d] == f.mem[p].regions[e.ref].own[e.n := d];
    assert SetOwn(g, p, v, d).mem[p].regions == SetOwn(f, p, v, d).mem[p].regions;
    assert SetOwn(g, p, v, d).mem == SetOwn(f, p, v, d).mem;
  }

  /** A kernel write through the chain is a plain write to one cell. */
  lemma KernelWriteSim(k: State, f: FState, p: nat, v: nat, at: nat, bytes: seq<Byte>)
    requires Inv(k) && Sim(k, f) && at + |bytes| <= PAGE_SIZE
    ensures Sim(KernelWrite(k, p, v, at, bytes), Write(f, p, v, at, bytes))
  {
    SimView(k, f, p, v);
    if View(k, p, v).Some? {
      WrittenIs(k, p, v, at, bytes);
      TouchInv(k, p, v);
      TouchSim(k, f, p, v);
      var m, j := AtPage(k, p, v).value, Looked(k, p, v);
      var c := Splice(View(k, p, v).value, at, bytes);
      if m.shared {
        SharedCell(k, f, p, v);
        SharedNoRegion(k, f, p, v);
        hide Inv, Sim, KernelWrite, View, LookupWrite, Splice;
        StoreBottomSim(j, f, m.obj, m.page, c);
      } else {
        TopIsRegion(k, f, p, v);
        hide Inv, Sim, KernelWrite, View, LookupWrite, Splice;
        StoreTopSim(j, Touch(f, p, v), p, v, m, c);
        SetTwice(f, p, v, View(k, p, v).value, c);
      }
    }
  }

  lemma WrittenIs(k: State, p: nat, v: nat, at: nat, bytes: seq<Byte>)
    requires Inv(k) && View(k, p, v).Some? && at + |bytes| <= PAGE_SIZE
    ensures var m, j := AtPage(k, p, v).value, Looked(k, p, v);
            && Live(j.heap, m.obj) && m.page in j.heap[m.obj].pages
            && KernelWrite(k, p, v, at, bytes) ==
               State(StorePage(j.heap, m.obj, m.page, Splice(View(k, p, v).value, at, bytes)), k.spaces, k.files)
  {
    var m := AtPage(k, p, v).value;
    MappedLive(k, p, v);
    LookupWriteKeeps(k.heap, m.obj, m.page, Refs(k));
  }

  /** A shared page names a page of its own object. */
  lemma SharedCell(k: State, f: FState, p: nat, v: nat)
    requires Inv(k) && Sim(k, f) && AtPage(k, p, v).Some? && AtPage(k, p, v).value.shared
    ensures var m := AtPage(k, p, v).value;
            && FAt(f, p, v) == Some(FPage(m.prot, true, Common(m.obj, m.page)))
            && f.mem[p].pages[v].ref == m.obj && f.mem[p].pages[v].n == m.page
            && Bottom(k.heap, m.obj) && m.obj in f.common && Touch(f, p, v) == f
            && Bottom(Looked(k, p, v).heap, m.obj)
  {
    MappedLive(k, p, v);
    assert FAt(f, p, v) == PageOf(k, p, v);
    TiedOf(k, f, p, v);
    assert Bottom(k.heap, AtPage(k, p, v).value.obj);
  }

  /** Through a writable entry, a store of the process and a kernel write do the same. */
  lemma UserStoreIsWrite(k: State, p: nat, v: nat, at: nat, bytes: seq<Byte>)
    requires Inv(k) && CanStore(k, p, v) && at + |bytes| <= PAGE_SIZE
    ensures UserStore(k, p, v, at, bytes) == KernelWrite(k, p, v, at, bytes)
  {
    var e := k.spaces[p].ptes[v];
    assert PteOk(k.heap, AtPage(k, p, v), e);
    assert Source(k.heap, e.obj, e.page) == e.obj;
  }

  // ----- fork -----

  lemma TopCells(h: Heap, g: Heap, o: nat, x: nat, n: nat)
    requires Extends(h, g) && Linked(h) && Live(h, o) && NewTop(h, g, o, x)
    ensures CellOf(g, x, n) == CellOf(h, o, n)
  {
    ExtendsCells(h, g, o, n);
    assert Source(g, x, n) == Source(g, o, n);
  }

  lemma TopRegion(h: Heap, g: Heap, o: nat, x: nat, r: Region)
    requires Extends(h, g) && Linked(h) && Live(h, o) && NewTop(h, g, o, x) && RegionIs(h, o, r)
    ensures RegionIs(g, x, r)
  {
    forall n: nat
      ensures CellOf(g, x, n) == CellOf(h, o, n)
    {
      TopCells(h, g, o, x, n);
    }
    RegionKept(h, g, o, x, r);
  }

  lemma SameBoundsFind(s: seq<Area>, t: seq<Area>, v: nat)
    requires |t| == |s| && forall i | 0 <= i < |s| :: t[i].start == s[i].start && t[i].end == s[i].end
    ensures Find(t, v) == Find(s, v)
  {
  }

  /** The area of parent or child that stands where area a stood. */
  ghost predicate ForkedAs(h: Heap, g: Heap, a: Area, b: Area) {
    b == WithObj(a, b.obj) && if a.shared then b == a else NewTop(h, g, a.obj, b.obj)
  }

  function ForkSide(k: State, p: nat, q: nat): seq<Area>
    requires p < |k.spaces|
  {
    var f := ForkAll(k.heap, k.spaces[p].areas);
    if q == p then f.parent else f.child
  }

  lemma ForkSides(k: State, p: nat, q: nat)
    requires p < |k.spaces|
    ensures var s, t := k.spaces[p].areas, ForkSide(k, p, q);
            |t| == |s| && forall i | 0 <= i < |s| :: ForkedAs(k.heap, Fork(k, p).heap, s[i], t[i])
  {
    var s := k.spaces[p].areas;
    var f := ForkAll(k.heap, s);
    ForkAllAreas(k.heap, s);
    forall i | 0 <= i < |s|
      ensures ForkedAs(k.heap, Fork(k, p).heap, s[i], ForkSide(k, p, q)[i])
    {
      assert ForkedArea(k.heap, f.heap, s[i], f.parent[i], f.child[i]);
    }
  }

  /** What parent and child map at a page after fork. */
  lemma ForkedAt(k: State, p: nat, q: nat, v: nat)
    requires p < |k.spaces| && (q == p || q == |k.spaces|)
    ensures |ForkSide(k, p, q)| == |k.spaces[p].areas|
    ensures var s, t, j := k.spaces[p].areas, ForkSide(k, p, q), Fork(k, p);
            match Find(s, v)
            case None => AtPage(j, q, v) == None
            case Some(i) =>
              && ForkedAs(k.heap, j.heap, s[i], t[i]) && StartAt(j, q, v) == Some(s[i].start)
              && AtPage(j, q, v) == Some(Mapping(t[i].obj, v - s[i].start + s[i].off, s[i].prot, s[i].shared))
  {
    var s, t, j := k.spaces[p].areas, ForkSide(k, p, q), Fork(k, p);
    assert q < |j.spaces| && j.spaces[q].areas == t;
    hide Fork, ForkSide, ForkAll, Find, NewTop;
    ForkSides(k, p, q);
    SideAt(k.heap, j.heap, s, t, v);
  }

  lemma SideAt(h: Heap, g: Heap, s: seq<Area>, t: seq<Area>, v: nat)
    requires |t| == |s| && forall i | 0 <= i < |s| :: ForkedAs(h, g, s[i], t[i])
    ensures match Find(s, v)
            case None => At(t, v) == None && StartOf(t, v) == None
            case Some(i) =>
              && ForkedAs(h, g, s[i], t[i]) && StartOf(t, v) == Some(s[i].start)
              && At(t, v) == Some(Mapping(t[i].obj, v - s[i].start + s[i].off, s[i].prot, s[i].shared))
  {
    hide NewTop;
    SameBoundsFind(s, t, v);
  }

  /** A private page and the first page of its area have one region. */
  lemma AreaShares(k: State, f: FState, p: nat, i: nat, v: nat)
    requires Inv(k) && SimTied(k, f) && SimSame(k, f) && p < |k.spaces|
    requires Find(k.spaces[p].areas, v) == Some(i) && !k.spaces[p].areas[i].shared
    ensures var x, a := f.mem[p], k.spaces[p].areas[i];
            && v in x.pages && x.pages[v].first == a.start && !x.pages[v].shared && x.pages[v].prot == a.prot
            && x.pages[v].n == v - a.start + a.off
            && a.start in x.pages && !x.pages[a.start].shared && x.pages[a.start].first == a.start
            && x.pages[a.start].ref == x.pages[v].ref && x.pages[v].ref in x.regions
            && RegionIs(k.heap, a.obj, x.regions[x.pages[v].ref])
  {
    assert |f.mem| == |k.spaces|;
    hide Inv, SimTied, SimSame, RegionIs;
    var s := k.spaces[p].areas;
    var a := s[i];
    SortedOf(k, p);
    assert a.start < a.end;
    AtIs(s, i, a.start);
    TiedOf(k, f, p, v);
    TiedOf(k, f, p, a.start);
    SameRegion(k, f, p, v, a.start);
  }

  /** The copy has, for the area that starts at page u, the region of that area. */
  lemma CopyHas(k: State, f: FState, p: nat, i: nat, v: nat)
    requires Inv(k) && SimTied(k, f) && SimSame(k, f) && p < |k.spaces|
    requires Find(k.spaces[p].areas, v) == Some(i) && !k.spaces[p].areas[i].shared
    ensures var x, a := f.mem[p], k.spaces[p].areas[i];
            var y := Copy(x, f.next);
            && f.next + a.start in y.regions && RegionIs(k.heap, a.obj, y.regions[f.next + a.start])
            && v in y.pages && y.pages[v] == Entry(a.start, a.prot, false, f.next + a.start, v - a.start + a.off)
  {
    assert |f.mem| == |k.spaces|;
    hide Inv, SimTied, SimSame, RegionIs, Copy, Find;
    AreaShares(k, f, p, i, v);
    CopyShares(f.mem[p], f.next, v, k.spaces[p].areas[i].start);
  }

  /** A page and the first page of its area have one region, and so have their copies. */
  lemma CopyShares(x: Proc, next: nat, v: nat, u: nat)
    requires v in x.pages && !x.pages[v].shared && x.pages[v].first == u
    requires u in x.pages && !x.pages[u].shared && x.pages[u].first == u
    requires x.pages[v].ref == x.pages[u].ref && x.pages[u].ref in x.regions
    ensures var e, y := x.pages[v], Copy(x, next);
            && next + u in y.regions && y.regions[next + u] == x.regions[e.ref]
            && v in y.pages && y.pages[v] == Entry(u, e.prot, false, next + u, e.n)
  {
    assert next + u in CopyNames(x, next);
  }

  lemma CopyIs(f: FState, p: nat, q: nat)
    requires p < |f.mem| && (q == p || q == |f.mem|)
    ensures |FStep(f, FFork(p)).mem| == |f.mem| + 1 && FStep(f, FFork(p)).mem[q] == Copy(f.mem[p], f.next)
  {
  }

  lemma ForkTied(k: State, f: FState, p: nat, q: nat, v: nat)
    requires Inv(k) && SimTied(k, f) && SimSame(k, f) && p < |k.spaces| && (q == p || q == |k.spaces|)
    ensures PageTied(Fork(k, p), FStep(f, FFork(p)), q, v)
  {
    assert |f.mem| == |k.spaces|;
    hide Inv, SimTied, SimSame, RegionIs, Fork, NewTop, ForkSide, Find, FStep;
    CopyIs(f, p, q);
    ForkedAt(k, p, q, v);
    TiedOf(k, f, p, v);
    match Find(k.spaces[p].areas, v)
    case None =>
    case Some(i) => if !k.spaces[p].areas[i].shared { ForkPrivate(k, f, p, q, i, v); }
  }

  lemma ForkPrivate(k: State, f: FState, p: nat, q: nat, i: nat, v: nat)
    requires Inv(k) && SimTied(k, f) && SimSame(k, f) && p < |k.spaces| && (q == p || q == |k.spaces|)
    requires Find(k.spaces[p].areas, v) == Some(i) && !k.spaces[p].areas[i].shared
    ensures i < |ForkSide(k, p, q)|
    ensures var a, y := k.spaces[p].areas[i], Copy(f.mem[p], f.next);
            && v in y.pages && y.pages[v] == Entry(a.start, a.prot, false, f.next + a.start, v - a.start + a.off)
            && f.next + a.start in y.regions
            && RegionIs(Fork(k, p).heap, ForkSide(k, p, q)[i].obj, y.regions[f.next + a.start])
  {
    assert |f.mem| == |k.spaces|;
    hide SimTied, SimSame, RegionIs, Copy, Find, ForkAll, Linked, Extends;
    var s, t := k.spaces[p].areas, ForkSide(k, p, q);
    assert HasArea(k, p, s[i]);
    assert Linked(k.heap) && Live(k.heap, s[i].obj);
    hide Inv;
    CopyHas(k, f, p, i, v);
    ForkedAt(k, p, q, v);
    ForkAllShadows(k.heap, s);
    TopRegion(k.heap, Fork(k, p).heap, s[i].obj, t[i].obj, Copy(f.mem[p], f.next).regions[f.next + s[i].start]);
  }

  lemma ForkBystander(k: State, f: FState, p: nat, q: nat, v: nat)
    requires Inv(k) && SimTied(k, f) && p < |k.spaces| && q < |k.spaces| && q != p
    ensures PageTied(Fork(k, p), FStep(f, FFork(p)), q, v)
    ensures TopAt(Fork(k, p), q, v) == TopAt(k, q, v) && RegionAt(FStep(f, FFork(p)), q, v) == RegionAt(f, q, v)
  {
    var j := Fork(k, p);
    ForkAllShadows(k.heap, k.spaces[p].areas);
    assert j.spaces[q] == k.spaces[q];
    TiedOf(k, f, q, v);
    hide Inv, SimTied, ForkAll, Extends;
    if TopAt(k, q, v).Some? {
      ExtendsRegion(k, j.heap, q, v, f.mem[q].regions[f.mem[q].pages[v].ref]);
    }
  }

  lemma ForkRegionAt(k: State, f: FState, p: nat, q: nat, v: nat)
    requires Inv(k) && SimTied(k, f) && SimSame(k, f) && p < |k.spaces| && (q == p || q == |k.spaces|)
    requires TopAt(Fork(k, p), q, v).Some?
    ensures Find(k.spaces[p].areas, v).Some? && |ForkSide(k, p, q)| == |k.spaces[p].areas|
    ensures var i := Find(k.spaces[p].areas, v).value;
            && !ForkSide(k, p, q)[i].shared && TopAt(Fork(k, p), q, v) == Some(ForkSide(k, p, q)[i].obj)
            && RegionAt(FStep(f, FFork(p)), q, v) == Some(f.next + k.spaces[p].areas[i].start)
  {
    assert |f.mem| == |k.spaces|;
    hide Inv, SimTied, SimSame, RegionIs, Fork, NewTop, Copy;
    ForkedAt(k, p, q, v);
    var i := Find(k.spaces[p].areas, v).value;
    CopyHas(k, f, p, i, v);
  }

  /** Regions and tops of parent and child are both one per area. */
  lemma ForkTops(k: State, f: FState, p: nat, q: nat, v: nat, w: nat)
    requires Inv(k) && SimTied(k, f) && SimSame(k, f) && p < |k.spaces| && (q == p || q == |k.spaces|)
    requires TopAt(Fork(k, p), q, v).Some? && TopAt(Fork(k, p), q, w).Some?
    ensures RegionAt(FStep(f, FFork(p)), q, v) == RegionAt(FStep(f, FFork(p)), q, w) <==>
            TopAt(Fork(k, p), q, v) == TopAt(Fork(k, p), q, w)
  {
    hide Inv, SimTied, SimSame, Fork, FStep, RegionAt, TopAt, ForkSide;
    ForkRegionAt(k, f, p, q, v);
    ForkRegionAt(k, f, p, q, w);
    var s := k.spaces[p].areas;
    var i, l := Find(s, v).value, Find(s, w).value;
    if i != l {
      SortedOf(k, p);
      SidesDiffer(k, p, q, i, l);
    }
  }

  lemma SidesDiffer(k: State, p: nat, q: nat, i: nat, l: nat)
    requires p < |k.spaces| && i < |k.spaces[p].areas| && l < |k.spaces[p].areas| && i != l
    requires |ForkSide(k, p, q)| == |k.spaces[p].areas|
    requires !ForkSide(k, p, q)[i].shared && !ForkSide(k, p, q)[l].shared
    ensures ForkSide(k, p, q)[i].obj != ForkSide(k, p, q)[l].obj
  {
    var s := k.spaces[p].areas;
    var f := ForkAll(k.heap, s);
    ForkAllAreas(k.heap, s);
    hide ForkAll, AreasForked, Spread;
    assert |f.parent| == |f.child| == |s| by { ForkedSizes(k.heap, s, f); }
    if ForkSide(k, p, q)[i].obj == ForkSide(k, p, q)[l].obj {
      PicksDiffer(k.heap, s, f, q == p, i, q == p, l);
    }
  }

  lemma ForkedSizes(h: Heap, s: seq<Area>, f: Forked)
    requires AreasForked(h, f.heap, s, f.parent, f.child)
    ensures |f.parent| == |f.child| == |s|
  {
  }

  lemma ForkSame(k: State, f: FState, p: nat)
    requires Inv(k) && Sim(k, f) && p < |k.spaces|
    ensures SimSame(Fork(k, p), FStep(f, FFork(p)))
  {
    var j, g := Fork(k, p), FStep(f, FFork(p));
    assert |j.spaces| == |k.spaces| + 1;
    hide Inv, SimMem, SimTied, SimNames, SimCommon, TopAt, RegionAt, Fork, FStep;
    forall q: nat, v: nat, w: nat | TopAt(j, q, v).Some? && TopAt(j, q, w).Some?
      ensures RegionAt(g, q, v) == RegionAt(g, q, w) <==> TopAt(j, q, v) == TopAt(j, q, w)
    {
      if q == p || q == |k.spaces| {
        ForkTops(k, f, p, q, v, w);
      } else if q < |k.spaces| {
        ForkBystander(k, f, p, q, v);
        ForkBystander(k, f, p, q, w);
        SameRegion(k, f, q, v, w);
      } else {
        NoTop(j, q, v);
      }
    }
  }

  lemma ForkNames(k: State, f: FState, p: nat)
    requires Inv(k) && SimTied(k, f) && SimNames(k, f) && p < |k.spaces|
    ensures SimNames(Fork(k, p), FStep(f, FFork(p)))
  {
    var x := f.mem[p];
    forall g | g in CopyNames(x, f.next)
      ensures g < f.next + USER_HIGH
    {
      var v :| v in x.pages && x.pages[v].first == v && !x.pages[v].shared && g == f.next + v;
      TiedOf(k, f, p, v);
      SortedOf(k, p);
    }
    ForkAllShadows(k.heap, k.spaces[p].areas);
  }

  lemma ForkBottoms(h: Heap, s: seq<Area>)
    ensures SameBottoms(h, ForkAll(h, s).heap)
  {
    var g := ForkAll(h, s).heap;
    ForkAllShadows(h, s);
    forall b: nat | Bottom(g, b)
      ensures Bottom(h, b) && forall n: nat :: Held(g, b, n) == Held(h, b, n)
    {
      if b >= |h| { ForkAllNoBottoms(h, s, b); }
    }
  }

  lemma {:induction false} ForkAllNoBottoms(h: Heap, s: seq<Area>, b: nat)
    requires b >= |h|
    ensures !Bottom(ForkAll(h, s).heap, b)
  {
    if s != [] {
      ForkAllNoBottoms(h, s[..|s| - 1], b);
    }
  }

  /** fork copies the map of the parent, its private pages area by area, and changes no cell of anyone. */
  lemma ForkSim(k: State, f: FState, p: nat)
    requires Inv(k) && Sim(k, f) && p < |k.spaces|
    ensures Sim(Fork(k, p), FStep(f, FFork(p)))
  {
    var j, g := Fork(k, p), FStep(f, FFork(p));
    assert |j.spaces| == |k.spaces| + 1 && |g.mem| == |f.mem| + 1 && g.common == f.common;
    ForkBottoms(k.heap, k.spaces[p].areas);
    SimCommonKept(k.heap, j.heap, f.common);
    hide Inv, SimMem, SimCommon, SameBottoms, PageTied, Fork, FStep;
    ForkSame(k, f, p);
    ForkNames(k, f, p);
    ForkInv(k, p);
    forall q: nat, v: nat | q < |g.mem|
      ensures PageTied(j, g, q, v)
    {
      if q == p || q == |k.spaces| { ForkTied(k, f, p, q, v); } else { ForkBystander(k, f, p, q, v); }
    }
    MemSim(j, g);
  }

  lemma ForkPage(k: State, f: FState, p: nat, q: nat, v: nat)
    requires Inv(k) && Sim(k, f) && p < |k.spaces|
    ensures PageOf(Fork(k, p), q, v) == PageOf(k, if q == |k.spaces| then p else q, v)
  {
    var j, g, r := Fork(k, p), FStep(f, FFork(p)), if q == |k.spaces| then p else q;
    ForkSim(k, f, p);
    assert FAt(g, q, v) == PageOf(j, q, v) && FAt(f, r, v) == PageOf(k, r, v);
    if r == p {
      CopyShows(k, f, p, v);
    }
  }

  /** A copy of a process shows what the process shows. */
  lemma CopyShows(k: State, f: FState, p: nat, v: nat)
    requires Inv(k) && Sim(k, f) && p < |k.spaces|
    ensures var x, y := f.mem[p], Copy(f.mem[p], f.next);
            && (v in y.pages <==> v in x.pages)
            && (v in x.pages ==> y.pages[v].prot == x.pages[v].prot && y.pages[v].shared == x.pages[v].shared &&
                                 EntryCell(y, y.pages[v]) == EntryCell(x, x.pages[v]))
  {
    TiedOf(k, f, p, v);
    hide SimMem, SimCommon, SimNames, SimTied;
    match Find(k.spaces[p].areas, v)
    case None =>
    case Some(i) =>
      var a := k.spaces[p].areas[i];
      if !a.shared {
        CopyHas(k, f, p, i, v);
        var n := v - a.start + a.off;
        assert RegionCell(Copy(f.mem[p], f.next).regions[f.next + a.start], n) == CellOf(k.heap, a.obj, n);
        assert RegionCell(f.mem[p].regions[f.mem[p].pages[v].ref], n) == CellOf(k.heap, a.obj, n);
      }
  }

  // ----- brk -----

  /** A growing break maps the pages that follow in the object of the heap area. */
  lemma GrowAt(k: State, p: nat, i: nat, end: nat, q: nat, w: nat)
    requires Inv(k) && p < |k.spaces| && i < |k.spaces[p].areas|
    requires k.spaces[p].areas[i].end <= end <= USER_HIGH
    requires RangeEmpty(k.spaces[p].areas, k.spaces[p].areas[i].end, end)
    ensures var a := k.spaces[p].areas[i];
            var j := Grow(k, p, i, end);
            if q == p && a.end <= w < end then
              AtPage(k, p, w) == None && AtPage(j, q, w) == Some(MappingOf(a, w)) && StartAt(j, q, w) == Some(a.start)
            else AtPage(j, q, w) == AtPage(k, q, w) && StartAt(j, q, w) == StartAt(k, q, w)
  {
    SortedOf(k, p);
    hide Inv;
    GrowAreas(k.spaces[p].areas, i, end, w);
  }

  lemma GrowTied(k: State, f: FState, p: nat, i: nat, end: nat, v: nat, q: nat, w: nat)
    requires Inv(k) && SimTied(k, f) && p < |k.spaces| && i < |k.spaces[p].areas| && q < |k.spaces|
    requires k.spaces[p].areas[i].end <= end <= USER_HIGH && Find(k.spaces[p].areas, v) == Some(i)
    requires RangeEmpty(k.spaces[p].areas, k.spaces[p].areas[i].end, end)
    ensures PageTied(Grow(k, p, i, end), FStep(f, FGrow(p, v, end)), q, w)
  {
    var a := k.spaces[p].areas[i];
    GrowAt(k, p, i, end, q, w);
    TiedOf(k, f, q, w);
    TiedOf(k, f, p, v);
    if v <= w < a.end {
      SortedOf(k, p);
      AtIs(k.spaces[p].areas, i, w);
    }
    hide Inv, SimTied, RangeEmpty, RegionIs;
  }

  lemma GrowRegions(k: State, f: FState, p: nat, i: nat, end: nat, v: nat, q: nat, w: nat)
    requires Inv(k) && SimTied(k, f) && p < |k.spaces| && i < |k.spaces[p].areas|
    requires k.spaces[p].areas[i].end <= end <= USER_HIGH && Find(k.spaces[p].areas, v) == Some(i)
    requires RangeEmpty(k.spaces[p].areas, k.spaces[p].areas[i].end, end)
    ensures var j, g := Grow(k, p, i, end), FStep(f, FGrow(p, v, end));
            var u := if q == p && k.spaces[p].areas[i].end <= w < end then v else w;
            TopAt(j, q, w) == TopAt(k, q, u) && (TopAt(j, q, w).Some? ==> RegionAt(g, q, w) == RegionAt(f, q, u))
  {
    var a := k.spaces[p].areas[i];
    GrowAt(k, p, i, end, q, w);
    if q < |f.mem| { TiedOf(k, f, q, w); }
    TiedOf(k, f, p, v);
    hide Inv, SimTied, RangeEmpty, RegionIs;
  }

  lemma GrowSame(k: State, f: FState, p: nat, i: nat, end: nat, v: nat)
    requires Inv(k) && Sim(k, f) && p < |k.spaces| && i < |k.spaces[p].areas|
    requires k.spaces[p].areas[i].end <= end <= USER_HIGH && Find(k.spaces[p].areas, v) == Some(i)
    requires RangeEmpty(k.spaces[p].areas, k.spaces[p].areas[i].end, end)
    ensures SimSame(Grow(k, p, i, end), FStep(f, FGrow(p, v, end)))
  {
    var j, g := Grow(k, p, i, end), FStep(f, FGrow(p, v, end));
    hide Inv, SimMem, SimTied, SimNames, SimCommon, TopAt, RegionAt, Grow, FStep, RangeEmpty;
    forall q: nat, x: nat, y: nat | TopAt(j, q, x).Some? && TopAt(j, q, y).Some?
      ensures RegionAt(g, q, x) == RegionAt(g, q, y) <==> TopAt(j, q, x) == TopAt(j, q, y)
    {
      var e := k.spaces[p].areas[i].end;
      GrowRegions(k, f, p, i, end, v, q, x);
      GrowRegions(k, f, p, i, end, v, q, y);
      SameRegion(k, f, q, if q == p && e <= x < end then v else x, if q == p && e <= y < end then v else y);
    }
  }

  /** A growing break continues the area of page v, with what its object holds there. */
  lemma GrowSim(k: State, f: FState, p: nat, i: nat, end: nat, v: nat)
    requires Inv(k) && Sim(k, f) && p < |k.spaces| && i < |k.spaces[p].areas|
    requires k.spaces[p].areas[i].end <= end <= USER_HIGH && Find(k.spaces[p].areas, v) == Some(i)
    requires RangeEmpty(k.spaces[p].areas, k.spaces[p].areas[i].end, end)
    ensures Sim(Grow(k, p, i, end), FStep(f, FGrow(p, v, end)))
  {
    var j, g := Grow(k, p, i, end), FStep(f, FGrow(p, v, end));
    assert j.heap == k.heap && |j.spaces| == |k.spaces| && |g.mem| == |f.mem| && g.common == f.common;
    assert SimNames(j, g);
    hide Inv, SimMem, SimNames, SimCommon, PageTied, Grow, FStep, RangeEmpty;
    GrowSame(k, f, p, i, end, v);
    GrowInv(k, p, i, end);
    forall q: nat, w: nat | q < |g.mem|
      ensures PageTied(j, g, q, w)
    {
      GrowTied(k, f, p, i, end, v, q, w);
    }
    MemSim(j, g);
  }
}
