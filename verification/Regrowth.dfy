/** What a growing break brings back. Shrinking the break unmaps pages but keeps the object of the heap
    area, with the pages written to it, so a page that is mapped again shows what it showed before. */
module Regrowth {
  import opened Wrappers
  import opened Areas
  import opened Objects
  import opened Overlay
  import opened Kernel
  import opened Flat
  import opened Access
  import opened Removal
  import opened Creation
  import opened Breaks
  import opened Representation
  import opened Runs
  import opened Theorems
  import opened Interference

  // ----- What a grown page shows -----

  /** The area of the break. */
  function HeapArea(k: State, p: nat): Area
    requires HeapFound(k, p)
  {
    k.spaces[p].areas[HeapIndex(k, p)]
  }

  function HeapPage(k: State, p: nat, v: nat): nat
    requires HeapFound(k, p) && HeapArea(k, p).start <= v
  {
    v - HeapArea(k, p).start + HeapArea(k, p).off
  }

  /** A grown page shows what the chain of the heap area holds for it. */
  lemma GrownShows(k: State, p: nat, addr: nat, v: nat)
    requires Inv(k) && BrkOk(k, p, addr) && addr != 0 && Brk(k, p, addr).Some?
    requires HeapFound(k, p) && HeapArea(k, p).end <= v < PageUp(addr)
    ensures AtPage(k, p, v) == None
    ensures View(Brk(k, p, addr).value, p, v) == Content(k.heap, HeapArea(k, p).obj, HeapPage(k, p, v))
  {
    hide Inv;
    var i := HeapIndex(k, p);
    SortedOf(k, p);
    GrowAt(k, p, i, PageUp(addr), p, v);
    var j := Grow(k, p, i, PageUp(addr));
    assert AtPage(SetBrk(j, p, addr), p, v) == AtPage(j, p, v);
  }

  /** Over an anonymous bottom, a grown page shows zeros if and only if the first object of the chain
      that has the page resident holds zeros there, or none has it. */
  lemma GrownZeros(k: State, p: nat, addr: nat, v: nat)
    requires Inv(k) && BrkOk(k, p, addr) && addr != 0 && Brk(k, p, addr).Some?
    requires HeapFound(k, p) && HeapArea(k, p).end <= v < PageUp(addr)
    requires var b := BottomOf(k.heap, HeapArea(k, p).obj); Live(k.heap, b) && k.heap[b].kind.Anon?
    ensures var n := HeapPage(k, p, v);
            var s := Source(k.heap, HeapArea(k, p).obj, n);
            && Live(k.heap, s)
            && (View(Brk(k, p, addr).value, p, v) == Some(ZeroPage()) <==>
                  (n in k.heap[s].pages ==> k.heap[s].pages[n] == ZeroPage()))
            && (n !in k.heap[s].pages ==>
                  forall o: nat | OnChain(k.heap, HeapArea(k, p).obj, o) && Live(k.heap, o) :: n !in k.heap[o].pages)
  {
    var o, n := HeapArea(k, p).obj, HeapPage(k, p, v);
    GrownShows(k, p, addr, v);
    assert HasArea(k, p, HeapArea(k, p));
    assert Linked(k.heap) && Live(k.heap, o);
    hide Inv, Brk, Linked;
    SourceIs(k.heap, o, n);
    if n !in k.heap[Source(k.heap, o, n)].pages {
      forall x: nat | OnChain(k.heap, o, x) && Live(k.heap, x)
        ensures n !in k.heap[x].pages
      {
        NoneAbove(k.heap, o, x, n);
      }
    }
  }

  /** x is o or below it. */
  predicate OnChain(h: Heap, o: nat, x: nat)
    decreases o
  {
    o == x || (IsShadow(h, o) && h[o].kind.shadowed < o && OnChain(h, h[o].kind.shadowed, x))
  }

  /** If even the end of a read does not have the page, no object of the chain has. */
  lemma {:induction false} NoneAbove(h: Heap, o: nat, x: nat, n: nat)
    requires OnChain(h, o, x) && Live(h, x) && Live(h, Source(h, o, n)) && n !in h[Source(h, o, n)].pages
    ensures n !in h[x].pages
    decreases o
  {
    if IsShadow(h, o) && n !in h[o].pages && h[o].kind.shadowed < o {
      if x != o { NoneAbove(h, h[o].kind.shadowed, x, n); }
    }
  }

  // ----- What runs leave alone -----

  /** What page n of the private object behind page v of p holds, mapped or not. */
  function Hidden(k: State, p: nat, v: nat, n: nat): Option<Page> {
    if TopAt(k, p, v).Some? then Content(k.heap, TopAt(k, p, v).value, n) else None
  }

  /** No file stands behind the private page v of p. */
  predicate NoFile(k: State, p: nat, v: nat) {
    TopAt(k, p, v).Some? && BottomOf(k.heap, TopAt(k, p, v).value) !in k.files
  }

  lemma HiddenCell(k: State, f: FState, p: nat, v: nat, n: nat)
    requires Inv(k) && Sim(k, f) && NoFile(k, p, v)
    ensures HasRegion(f, p, v)
    ensures var c := RegionCell(f.mem[p].regions[f.mem[p].pages[v].ref], n);
            && Hidden(k, p, v, n) == CellContent(f.common, c)
            && (c.Common? ==> c.obj in f.common && Bottom(k.heap, c.obj) && c.obj !in k.files &&
                              c.obj == BottomOf(k.heap, TopAt(k, p, v).value))
  {
    var o := TopAt(k, p, v).value;
    TopIsRegion(k, f, p, v);
    MappedLive(k, p, v);
    assert Linked(k.heap);
    hide Inv;
    SourceIs(k.heap, o, n);
    var c := RegionCell(f.mem[p].regions[f.mem[p].pages[v].ref], n);
    assert c == CellOf(k.heap, o, n);
    var s := Source(k.heap, o, n);
    assert Bottom(k.heap, s) ==> SimObj(k.heap, s, f.common[s]);
  }

  /** What page n of the region behind page u of p holds. */
  function FHidden(f: FState, p: nat, u: nat, n: nat): Option<Page>
    requires HasRegion(f, p, u)
  {
    CellContent(f.common, RegionCell(f.mem[p].regions[f.mem[p].pages[u].ref], n))
  }

  /** Page u stays private, on the same page of a region over the same object, and page n of it holds the same. */
  predicate FKept(f: FState, g: FState, p: nat, u: nat, n: nat) {
    && HasRegion(f, p, u) && HasRegion(g, p, u) && g.mem[p].pages[u].n == f.mem[p].pages[u].n
    && g.mem[p].regions[g.mem[p].pages[u].ref].base == f.mem[p].regions[f.mem[p].pages[u].ref].base
    && FHidden(g, p, u, n) == FHidden(f, p, u, n)
  }

  /** The page at which the area of page u starts has the same region. */
  predicate Copyable(x: Proc, u: nat)
    requires u in x.pages
  {
    var e := x.pages[u];
    && e.first in x.pages && !x.pages[e.first].shared && x.pages[e.first].first == e.first
    && x.pages[e.first].ref == e.ref
  }

  /** The flat operation does not write to page n of the region of u or to the object below it, and if it is
      of p it keeps page u. */
  predicate FSpares(f: FState, op: FOp, p: nat, u: nat, n: nat)
    requires HasRegion(f, p, u)
  {
    var e, c := f.mem[p].pages[u], RegionCell(f.mem[p].regions[f.mem[p].pages[u].ref], n);
    && e.ref != f.next && (c.Common? ==> c.obj in f.common)
    && (op.FWrite? && FAt(f, op.p, op.v).Some? && !HasRegion(f, op.p, op.v) && c.Common? ==>
          f.mem[op.p].pages[op.v].ref != c.obj)
    && (op.p == p ==>
          match op
          case FUnmap(_, lo, hi) => !(lo <= u < hi)
          case FMap(_, l, r, _) => !(l <= u < l + r.n)
          case FFork(_) => Copyable(f.mem[p], u)
          case FWrite(_, w, _, _) =>
            HasRegion(f, p, w) && f.mem[p].pages[w].ref == e.ref ==> f.mem[p].pages[w].n != n
          case FExit(_) => false
          case _ => true)
  }

  lemma FSpareStep(f: FState, op: FOp, p: nat, u: nat, n: nat)
    requires HasRegion(f, p, u) && FOpOk(f, op) && FSpares(f, op, p, u, n)
    ensures FKept(f, FStep(f, op), p, u, n)
  {
    if op.FFork? && op.p == p {
      ForkSpares(f, p, u, n);
    } else if op.FTouch? && op.p == p {
      TouchSpares(f, p, op.v, u, n);
    }
  }

  lemma ForkSpares(f: FState, p: nat, u: nat, n: nat)
    requires HasRegion(f, p, u) && Copyable(f.mem[p], u)
    ensures FKept(f, FStep(f, FFork(p)), p, u, n)
  {
    CopyShares(f.mem[p], f.next, u, f.mem[p].pages[u].first);
    CopyIs(f, p, p);
    hide FStep, Copy;
    assert FStep(f, FFork(p)).common == f.common by { ForkCommon(f, p); }
  }

  lemma ForkCommon(f: FState, p: nat)
    requires p < |f.mem|
    ensures FStep(f, FFork(p)).common == f.common
  {
  }

  lemma TouchSpares(f: FState, p: nat, w: nat, u: nat, n: nat)
    requires HasRegion(f, p, u)
    ensures FKept(f, Touch(f, p, w), p, u, n)
  {
  }

  lemma {:induction false} FSpareRun(f: FState, ops: seq<FOp>, p: nat, u: nat, n: nat)
    requires HasRegion(f, p, u) && |ops| <= 2 && forall i | 0 <= i < |ops| :: FSpares(f, ops[i], p, u, n)
    requires |ops| == 2 ==> ops[0].FUnmap? && ops[1].FMap?
    ensures FKept(f, FRun(f, ops), p, u, n)
  {
    if |ops| == 1 {
      assert ops == [ops[0]];
      FSpareOne(f, ops[0], p, u, n);
    } else if |ops| == 2 {
      assert ops == [ops[0]] + [ops[1]];
      FRunAppend(f, [ops[0]], [ops[1]]);
      FSpareOne(f, ops[0], p, u, n);
      var g := FRun(f, [ops[0]]);
      assert FSpares(g, ops[1], p, u, n) by { UnmapSpares(f, ops[0], ops[1], p, u, n); }
      FSpareOne(g, ops[1], p, u, n);
    }
  }

  lemma UnmapSpares(f: FState, a: FOp, b: FOp, p: nat, u: nat, n: nat)
    requires HasRegion(f, p, u) && FSpares(f, a, p, u, n) && FSpares(f, b, p, u, n) && a.FUnmap? && b.FMap?
    ensures HasRegion(FRun(f, [a]), p, u) && FSpares(FRun(f, [a]), b, p, u, n)
  {
    FRunOne(f, a);
  }

  lemma FSpareOne(f: FState, op: FOp, p: nat, u: nat, n: nat)
    requires HasRegion(f, p, u) && FSpares(f, op, p, u, n)
    ensures FKept(f, FRun(f, [op]), p, u, n)
  {
    FRunOne(f, op);
    hide FStep, FSpares;
    if FOpOk(f, op) { FSpareStep(f, op, p, u, n); }
  }

  lemma WriteOther(k: State, f: FState, q: nat, w: nat, p: nat, v: nat, n: nat)
    requires Inv(k) && Sim(k, f) && Apart(k) && NoFile(k, p, v) && FAt(f, q, w).Some? && !HasRegion(f, q, w)
    ensures HasRegion(f, p, v)
    ensures var c := RegionCell(f.mem[p].regions[f.mem[p].pages[v].ref], n);
            c.Common? ==> f.mem[q].pages[w].ref != c.obj
  {
    HiddenCell(k, f, p, v, n);
    AloneInSim(k, f, q, w, q, w);
    assert FAt(f, q, w) == PageOf(k, q, w);
    SharedCell(k, f, q, w);
    var a := k.spaces[p].areas[Find(k.spaces[p].areas, v).value];
    var b := k.spaces[q].areas[Find(k.spaces[q].areas, w).value];
    assert HasArea(k, p, a) && HasArea(k, q, b);
  }

  /** Private pages of one object lie in it as they lie in memory. */
  lemma SameOffset(k: State, p: nat, u: nat, w: nat)
    requires Inv(k) && TopAt(k, p, u).Some? && TopAt(k, p, w) == TopAt(k, p, u)
    ensures AtPage(k, p, w).value.page - w == AtPage(k, p, u).value.page - u
  {
    var a := k.spaces[p].areas[Find(k.spaces[p].areas, u).value];
    var b := k.spaces[p].areas[Find(k.spaces[p].areas, w).value];
    assert HasArea(k, p, a) && HasArea(k, p, b);
  }

  /** Page n of the object behind page u is where page v would show it. */
  predicate Faces(k: State, p: nat, u: nat, v: nat, n: nat) {
    AtPage(k, p, u).Some? && n - AtPage(k, p, u).value.page == v - u
  }

  /** Anything others do, and what p itself does without writing to page v, unmapping or replacing the page
      u, loading a program or ending. */
  predicate Spares(k: State, op: Op, p: nat, u: nat, v: nat)
    requires Enabled(k, op)
  {
    op.p == p ==>
      match op
      case DoMmap(_, r) => Target(k, p, r).Some? ==> !(Target(k, p, r).value <= u < Target(k, p, r).value + r.n)
      case DoMunmap(_, lo, n) => !(lo <= u < lo + n)
      case DoFault(_, w, write, exec) => Served(k, p, w, write, exec)
      case DoWrite(_, w, _, _) => w != v
      case DoStore(_, w, _, _) => w != v
      case DoLoad(_, _) => false
      case DoBrk(_, addr) => !BrkCuts(k, p, addr, u)
      case DoExit(_) => false
      case _ => true
  }

  lemma WriteSpares(k: State, f: FState, q: nat, w: nat, at: nat, bytes: seq<Byte>, p: nat, u: nat, v: nat, n: nat)
    requires Inv(k) && Sim(k, f) && Apart(k) && NoFile(k, p, u) && Faces(k, p, u, v, n) && (q == p ==> w != v)
    ensures HasRegion(f, p, u) && FSpares(f, FWrite(q, w, at, bytes), p, u, n)
  {
    HiddenCell(k, f, p, u, n);
    RegionOld(k, f, p, u);
    if FAt(f, q, w).Some? && !HasRegion(f, q, w) { WriteOther(k, f, q, w, p, u, n); }
    if q == p && HasRegion(f, p, w) {
      TiedOf(k, f, p, w);
      TiedOf(k, f, p, u);
      SameRegion(k, f, p, u, w);
      if TopAt(k, p, w) == TopAt(k, p, u) { SameOffset(k, p, u, w); }
    }
    hide Inv, Sim, Apart, NoFile;
  }

  lemma RegionOld(k: State, f: FState, p: nat, u: nat)
    requires Sim(k, f) && HasRegion(f, p, u)
    ensures f.mem[p].pages[u].ref < f.next
  {
  }

  /** A flat operation that is no write, and that p itself takes only if page u stays. */
  lemma PlainSpares(k: State, f: FState, op: FOp, p: nat, u: nat, n: nat)
    requires Inv(k) && Sim(k, f) && NoFile(k, p, u) && LabelKeeps(op, p, u)
    ensures HasRegion(f, p, u) && FSpares(f, op, p, u, n)
  {
    HiddenCell(k, f, p, u, n);
    RegionOld(k, f, p, u);
    if op.FFork? && op.p == p { AreaCopyable(k, f, p, u); }
    hide Inv, Sim, NoFile;
  }

  lemma AreaCopyable(k: State, f: FState, p: nat, u: nat)
    requires Inv(k) && Sim(k, f) && NoFile(k, p, u) && HasRegion(f, p, u)
    ensures Copyable(f.mem[p], u)
  {
    var i := Find(k.spaces[p].areas, u).value;
    AreaShares(k, f, p, i, u);
  }

  /** The labels are at most a removal and an addition; of the process itself they keep page u. */
  lemma LabelShape(k: State, op: Op, p: nat, u: nat, v: nat)
    requires Enabled(k, op) && Spares(k, op, p, u, v) && !op.DoWrite? && !op.DoStore?
    ensures |Label(k, op)| <= 2
    ensures |Label(k, op)| == 2 ==> Label(k, op)[0].FUnmap? && Label(k, op)[1].FMap?
    ensures forall i | 0 <= i < |Label(k, op)| :: LabelKeeps(Label(k, op)[i], p, u)
  {
    hide Target, MapOk, Cleared, IsClear, View, Denied;
  }

  predicate LabelKeeps(op: FOp, p: nat, u: nat) {
    && !op.FWrite?
    && (op.p == p ==>
          !op.FExit? && (op.FUnmap? ==> !(op.lo <= u < op.hi)) && (op.FMap? ==> !(op.l <= u < op.l + op.r.n)))
  }

  lemma LabelSpares(k: State, f: FState, op: Op, p: nat, u: nat, v: nat, n: nat)
    requires Inv(k) && Sim(k, f) && Apart(k) && NoFile(k, p, u) && Faces(k, p, u, v, n)
    requires Enabled(k, op) && Spares(k, op, p, u, v)
    ensures HasRegion(f, p, u)
    ensures forall i | 0 <= i < |Label(k, op)| :: FSpares(f, Label(k, op)[i], p, u, n)
    ensures |Label(k, op)| <= 2
    ensures |Label(k, op)| == 2 ==> Label(k, op)[0].FUnmap? && Label(k, op)[1].FMap?
  {
    HiddenCell(k, f, p, u, n);
    hide Inv, Sim, Apart, NoFile, Hidden, CellContent, Bottom, Faces, FSpares, HasRegion;
    if op.DoWrite? || op.DoStore? {
      WriteSpares(k, f, op.p, op.v, op.at, op.bytes, p, u, v, n);
    } else {
      LabelShape(k, op, p, u, v);
      hide Label, Enabled, Spares;
      forall i | 0 <= i < |Label(k, op)|
        ensures FSpares(f, Label(k, op)[i], p, u, n)
      {
        PlainSpares(k, f, Label(k, op)[i], p, u, n);
      }
    }
  }

  lemma FaultBreak(k: State, p: nat, w: nat, write: bool, exec: bool)
    requires Inv(k) && p < |k.spaces| && Served(k, p, w, write, exec)
    ensures var j := Fault(k, p, w, write, exec);
            p < |j.spaces| && j.spaces[p].startBrk == k.spaces[p].startBrk && j.spaces[p].brk == k.spaces[p].brk
  {
    var m := AtPage(k, p, w).value;
    MappedLive(k, p, w);
    LookupWriteKeeps(k.heap, m.obj, m.page, Refs(k));
    LookupReadKeeps(k.heap, m.obj, m.page, Refs(k));
    hide Inv, LookupRead, LookupWrite;
  }

  lemma BreakKept(k: State, op: Op, p: nat)
    requires Inv(k) && Enabled(k, op) && p < |k.spaces| && (op.p == p ==> !op.DoLoad? && !op.DoExit?)
    requires op.DoFault? && op.p == p ==> Served(k, p, op.v, op.write, op.exec)
    ensures p < |Step(k, op).spaces| && Step(k, op).spaces[p].startBrk == k.spaces[p].startBrk
    ensures Step(k, op).spaces[p].brk == k.spaces[p].brk || (op.DoBrk? && op.p == p)
  {
    if op.DoFault? && op.p == p {
      FaultBreak(k, p, op.v, op.write, op.exec);
    } else {
      OtherBreaks(k, op, p);
    }
  }

  lemma OtherBreaks(k: State, op: Op, p: nat)
    requires Enabled(k, op) && p < |k.spaces| && (op.p == p ==> !op.DoLoad? && !op.DoExit? && !op.DoFault?)
    ensures p < |Step(k, op).spaces| && Step(k, op).spaces[p].startBrk == k.spaces[p].startBrk
    ensures Step(k, op).spaces[p].brk == k.spaces[p].brk || (op.DoBrk? && op.p == p)
  {
    hide Find, RangeEmpty, FindRange, LookupRead, LookupWrite, CutAll, CutHeap, PutAll, Put, Insert, MakeObj, ForkAll;
  }

  /** A sparing step keeps page u on the same page of its object, and what page n of the object holds. */
  lemma SpareStep(k: State, f: FState, op: Op, p: nat, u: nat, v: nat, n: nat)
    requires Inv(k) && Sim(k, f) && Apart(k) && NoFile(k, p, u) && Faces(k, p, u, v, n)
    requires Enabled(k, op) && Spares(k, op, p, u, v)
    ensures var j := Step(k, op);
            && NoFile(j, p, u) && Faces(j, p, u, v, n) && Hidden(j, p, u, n) == Hidden(k, p, u, n)
  {
    var j, g := Step(k, op), FRun(f, Label(k, op));
    StepInv(k, op);
    StepSim(k, f, op);
    StepFiles(k, op);
    LabelSpares(k, f, op, p, u, v, n);
    hide Inv, Apart, Step, Label, Enabled, Spares;
    HiddenCell(k, f, p, u, n);
    FSpareRun(f, Label(k, op), p, u, n);
    hide FRun;
    SameBottom(k, f, j, g, p, u, n);
    HiddenCell(j, g, p, u, n);
    SameFace(k, f, j, g, p, u, n);
  }

  lemma SameFace(k: State, f: FState, j: State, g: FState, p: nat, u: nat, n: nat)
    requires Sim(k, f) && Sim(j, g) && FKept(f, g, p, u, n)
    ensures TopAt(j, p, u).Some? && AtPage(k, p, u).Some? && AtPage(j, p, u).Some?
    ensures AtPage(j, p, u).value.page == AtPage(k, p, u).value.page
  {
    TiedOf(k, f, p, u);
    TiedOf(j, g, p, u);
  }

  /** The bottom of a private object is the base of its region. */
  lemma SameBottom(k: State, f: FState, j: State, g: FState, p: nat, u: nat, n: nat)
    requires Inv(k) && Sim(k, f) && Inv(j) && Sim(j, g) && NoFile(k, p, u) && FKept(f, g, p, u, n)
    requires j.files == k.files
    ensures NoFile(j, p, u)
  {
    SameFace(k, f, j, g, p, u, n);
    BottomIsBase(k, f, p, u);
    BottomIsBase(j, g, p, u);
    assert BottomOf(k.heap, TopAt(k, p, u).value) !in k.files by { NoFileIs(k, p, u); }
    hide Inv, Sim, NoFile;
    NoFileBy(j, p, u);
  }

  lemma BottomIsBase(k: State, f: FState, p: nat, u: nat)
    requires Inv(k) && Sim(k, f) && TopAt(k, p, u).Some?
    ensures HasRegion(f, p, u)
    ensures BottomOf(k.heap, TopAt(k, p, u).value) == f.mem[p].regions[f.mem[p].pages[u].ref].base
  {
    var o := TopAt(k, p, u).value;
    TopIsRegion(k, f, p, u);
    MappedLive(k, p, u);
    var r := f.mem[p].regions[f.mem[p].pages[u].ref];
    var n := Unwritten(r.own);
    assert Linked(k.heap);
    hide Inv, Sim;
    assert CellOf(k.heap, o, n) == RegionCell(r, n);
    SourceIs(k.heap, o, n);
  }

  lemma NoFileIs(k: State, p: nat, v: nat)
    requires NoFile(k, p, v)
    ensures TopAt(k, p, v).Some? && BottomOf(k.heap, TopAt(k, p, v).value) !in k.files
  {
  }

  lemma NoFileBy(k: State, p: nat, v: nat)
    requires TopAt(k, p, v).Some? && BottomOf(k.heap, TopAt(k, p, v).value) !in k.files
    ensures NoFile(k, p, v)
  {
  }

  /** A page number that is not in a finite map. */
  ghost function Unwritten(own: map<nat, Page>): (n: nat)
    ensures n !in own
  {
    var n := Above(own.Keys);
    n
  }

  ghost function Above(s: set<nat>): (n: nat)
    ensures forall x | x in s :: x < n
  {
    if s == {} then 0
    else
      var x :| x in s;
      var m := Above(s - {x});
      assert forall y | y in s :: y == x || y in s - {x};
      if m <= x then x + 1 else m
  }

  /** Every operation of the run spares them at its point. */
  ghost predicate SparingRun(k: State, more: seq<Op>, p: nat, u: nat, v: nat) {
    forall i | 0 <= i < |more| :: Enabled(Run(k, more[..i]), more[i]) ==> Spares(Run(k, more[..i]), more[i], p, u, v)
  }

  lemma {:induction false} SpareRun(k: State, f: FState, more: seq<Op>, p: nat, u: nat, v: nat, n: nat)
    returns (g: FState)
    requires Inv(k) && Sim(k, f) && Apart(k) && NoFile(k, p, u) && Faces(k, p, u, v, n) && p < |k.spaces|
    requires SparingRun(k, more, p, u, v)
    ensures var j := Run(k, more);
            && Inv(j) && Sim(j, g) && Apart(j) && NoFile(j, p, u) && Faces(j, p, u, v, n)
            && p < |j.spaces| && j.spaces[p].startBrk == k.spaces[p].startBrk
            && Hidden(j, p, u, n) == Hidden(k, p, u, n)
  {
    hide Inv, Sim, Apart, NoFile, Hidden, Step, Label, Enabled, Faces, Spares;
    if more == [] {
      g := f;
    } else {
      var m, op := |more| - 1, more[|more| - 1];
      assert forall i | 0 <= i < m :: more[..m][..i] == more[..i] && more[..m][i] == more[i];
      g := SpareRun(k, f, more[..m], p, u, v, n);
      var j := Run(k, more[..m]);
      if Enabled(j, op) {
        assert Spares(j, op, p, u, v);
        SpareStep(j, g, op, p, u, v, n);
        StepInv(j, op);
        StepApart(j, op);
        StepSim(j, g, op);
        assert p < |Step(j, op).spaces| && Step(j, op).spaces[p].startBrk == j.spaces[p].startBrk by {
          SparesBreak(j, op, p, u, v);
        }
        g := FRun(g, Label(j, op));
      }
    }
  }

  lemma SparesBreak(k: State, op: Op, p: nat, u: nat, v: nat)
    requires Inv(k) && Enabled(k, op) && p < |k.spaces| && Spares(k, op, p, u, v)
    ensures p < |Step(k, op).spaces| && Step(k, op).spaces[p].startBrk == k.spaces[p].startBrk
  {
    BreakKept(k, op, p);
  }

  // ----- Shrink, then grow -----

  /** Page v is a private page of the heap area, with no file behind it, and a brk to low takes it away
      but keeps the start of the break mapped. */
  predicate GivesUp(k: State, p: nat, low: nat, v: nat) {
    && BrkOk(k, p, low) && low != 0 && Brk(k, p, low).Some? && HeapFound(k, p) && HeapFound(Brk(k, p, low).value, p)
    && HeapArea(k, p).start <= v < HeapArea(k, p).end && PageUp(low) <= v
    && !HeapArea(k, p).shared && BottomOf(k.heap, HeapArea(k, p).obj) !in k.files
  }

  /** A brk to high succeeds and reaches page v. */
  predicate TakesAgain(k: State, p: nat, high: nat, v: nat) {
    BrkOk(k, p, high) && high != 0 && Brk(k, p, high).Some? && v < PageUp(high)
  }

  /** A brk that leaves the page of the start of the break mapped is sparing. */
  lemma BrkSpares(k: State, p: nat, addr: nat, v: nat)
    requires Inv(k) && BrkOk(k, p, addr) && addr != 0 && Brk(k, p, addr).Some? && HeapFound(Brk(k, p, addr).value, p)
    ensures Enabled(k, DoBrk(p, addr)) && Step(k, DoBrk(p, addr)) == Brk(k, p, addr).value
    ensures Spares(k, DoBrk(p, addr), p, k.spaces[p].startBrk / PAGE_SIZE, v)
  {
    BrkKeepsHeap(k, p, addr);
    BreakAboveStart(k, p, addr);
    hide Inv;
  }

  lemma HeapFaces(k: State, p: nat, v: nat)
    requires HeapFound(k, p) && HeapArea(k, p).start <= v
    ensures Faces(k, p, k.spaces[p].startBrk / PAGE_SIZE, v, HeapPage(k, p, v))
    ensures forall n | Faces(k, p, k.spaces[p].startBrk / PAGE_SIZE, v, n) :: n == HeapPage(k, p, v)
  {
  }

  /** From the page given up, over a sparing run, to the page taken again. */
  lemma {:induction false} GiveBack(k: State, f: FState, p: nat, low: nat, more: seq<Op>, high: nat, v: nat)
    requires Inv(k) && Sim(k, f) && Apart(k) && GivesUp(k, p, low, v)
    requires SparingRun(Brk(k, p, low).value, more, p, k.spaces[p].startBrk / PAGE_SIZE, v)
    requires TakesAgain(Run(Brk(k, p, low).value, more), p, high, v)
    ensures var j := Run(Brk(k, p, low).value, more);
            && HeapFound(j, p) && (HeapArea(j, p).end <= v ==> AtPage(j, p, v) == None)
            && View(Brk(j, p, high).value, p, v) == View(k, p, v)
  {
    var u, n := k.spaces[p].startBrk / PAGE_SIZE, HeapPage(k, p, v);
    HeapShows(k, p, v);
    HeapFaces(k, p, v);
    NoFileBy(k, p, u);
    BrkSpares(k, p, low, v);
    SpareStep(k, f, DoBrk(p, low), p, u, v, n);
    SparesBreak(k, DoBrk(p, low), p, u, v);
    StepInv(k, DoBrk(p, low));
    StepApart(k, DoBrk(p, low));
    StepSim(k, f, DoBrk(p, low));
    var i, h := Brk(k, p, low).value, FRun(f, Label(k, DoBrk(p, low)));
    hide Inv, Sim, Apart, Brk, View, Hidden, NoFile, Faces, Run, Step, Label, FRun, GivesUp, SparingRun;
    var g := SpareRun(i, h, more, p, u, v, n);
    TakenBack(Run(i, more), g, p, high, v, n);
  }

  lemma TakenBack(j: State, g: FState, p: nat, high: nat, v: nat, n: nat)
    requires Inv(j) && Sim(j, g) && Apart(j) && p < |j.spaces| && TakesAgain(j, p, high, v)
    requires var u := j.spaces[p].startBrk / PAGE_SIZE; NoFile(j, p, u) && Faces(j, p, u, v, n) && u <= v
    ensures HeapFound(j, p) && (HeapArea(j, p).end <= v ==> AtPage(j, p, v) == None)
    ensures View(Brk(j, p, high).value, p, v) == Hidden(j, p, j.spaces[p].startBrk / PAGE_SIZE, n)
  {
    var u, m := j.spaces[p].startBrk / PAGE_SIZE, Brk(j, p, high).value;
    assert HeapFound(j, p);
    if HeapArea(j, p).end <= v { GrownShows(j, p, high, v); }
    BrkKeepsHeap(j, p, high);
    BreakAboveStart(j, p, high);
    BrkMovesEnd(j, p, high);
    BrkSpares(j, p, high, v);
    SpareStep(j, g, DoBrk(p, high), p, u, v, n);
    SparesBreak(j, DoBrk(p, high), p, u, v);
    StepInv(j, DoBrk(p, high));
    HeapShows(m, p, v);
    HeapFaces(m, p, v);
  }

  /** A page that the break gave up and takes again shows what it showed before, whatever other processes and
      the process itself did in between, as long as that left the page of the start of the break mapped,
      loaded no other program and wrote nothing to the page should it have been mapped for a while. So it
      shows zeros exactly if it did then. */
  lemma {:induction false} BrkGivesBack(stores: seq<map<nat, Page>>, ops: seq<Op>, p: nat, low: nat, more: seq<Op>,
                                        high: nat, v: nat)
    requires GivesUp(Reached(stores, ops), p, low, v)
    requires var k := Reached(stores, ops);
             SparingRun(Brk(k, p, low).value, more, p, k.spaces[p].startBrk / PAGE_SIZE, v)
    requires TakesAgain(Run(Brk(Reached(stores, ops), p, low).value, more), p, high, v)
    ensures var j := Run(Brk(Reached(stores, ops), p, low).value, more);
            && HeapFound(j, p) && (HeapArea(j, p).end <= v ==> AtPage(j, p, v) == None)
            && View(Brk(j, p, high).value, p, v) == View(Reached(stores, ops), p, v)
  {
    RunInv(stores, ops);
    RunRefines(stores, ops);
    RunApart(stores, ops);
    hide Inv, Sim, Apart, Brk, View, HeapFound;
    GiveBack(Reached(stores, ops), FlatReached(stores, ops), p, low, more, high, v);
  }

  /** A page of the heap area shows what the object of the area holds for it. */
  lemma HeapShows(k: State, p: nat, v: nat)
    requires Inv(k) && HeapFound(k, p) && !HeapArea(k, p).shared && HeapArea(k, p).start <= v < HeapArea(k, p).end
    ensures var u := k.spaces[p].startBrk / PAGE_SIZE;
            TopAt(k, p, u) == Some(HeapArea(k, p).obj) && View(k, p, v) == Hidden(k, p, u, HeapPage(k, p, v))
  {
    SortedOf(k, p);
    AtIs(k.spaces[p].areas, HeapIndex(k, p), v);
  }

  // ----- It happens -----

  const HEAP: Request := Request(USER_LOW, 2, 0, Prot(true, true, false), false, None)
  const LOW: nat := (USER_LOW + 1) * PAGE_SIZE
  const HIGH: nat := (USER_LOW + 2) * PAGE_SIZE

  /** Map a heap of two private pages, set the break there, and write to the second page. */
  function HeapOps(): seq<Op> {
    [DoMmap(0, HEAP), DoLoad(0, USER_LOW * PAGE_SIZE), DoWrite(0, USER_LOW + 1, 0, [1])]
  }

  lemma HeapMapped()
    ensures var k := Mmap(Boot([]), 0, HEAP);
            && MapOk(Boot([]), 0, HEAP) && |k.spaces| == 1
            && k.heap == [Obj(2, map[], Anon), Obj(1, map[], Shadow(0, 0))]
            && k.spaces[0].areas == [Area(USER_LOW, USER_LOW + 2, 0, Prot(true, true, false), false, 1)]
            && k.files == multiset{}
  {
    assert Boot([]).heap == [];
    assert RangeEmpty([], USER_LOW, USER_LOW + 2);
  }

  lemma HeapReached()
    ensures var k := SetBreaks(Mmap(Boot([]), 0, HEAP), 0, USER_LOW * PAGE_SIZE, USER_LOW * PAGE_SIZE);
            Reached([], HeapOps()) == KernelWrite(k, 0, USER_LOW + 1, 0, [1]) &&
            Reached([], HeapOps()[..2]) == k
  {
    HeapMapped();
    var a, b, c := HeapOps()[0], HeapOps()[1], HeapOps()[2];
    hide Mmap, MapOk, KernelWrite;
    assert HeapOps()[..2] == [a, b] && [a, b][..1] == [a] && [a][..0] == [];
    assert Run(Boot([]), []) == Boot([]) && Run(Boot([]), [a]) == Mmap(Boot([]), 0, HEAP);
    assert Run(Boot([]), [a, b]) == SetBreaks(Mmap(Boot([]), 0, HEAP), 0, USER_LOW * PAGE_SIZE, USER_LOW * PAGE_SIZE);
  }

  /** The heap after the write: its second page shows a one. */
  lemma HeapWritten()
    ensures var k := Reached([], HeapOps());
            && |k.spaces| == 1 && k.files == multiset{} && k.spaces[0].startBrk == USER_LOW * PAGE_SIZE
            && k.spaces[0].areas == [Area(USER_LOW, USER_LOW + 2, 0, Prot(true, true, false), false, 1)]
            && View(k, 0, USER_LOW + 1) == Some(Splice(ZeroPage(), 0, [1]))
  {
    HeapMapped();
    HeapReached();
    var k := Reached([], HeapOps()[..2]);
    assert AtPage(k, 0, USER_LOW + 1) == Some(Mapping(1, 1, Prot(true, true, false), false)) by {
      AtSingle(k.spaces[0].areas[0], USER_LOW + 1);
      assert k.spaces[0].areas == [k.spaces[0].areas[0]];
    }
    assert Source(k.heap, 1, 1) == Source(k.heap, 0, 1) == 0;
    PrivateWriteIsolated([], HeapOps()[..2], 0, USER_LOW + 1, 0, [1], 0, USER_LOW + 1);
  }

  /** Shrink the break below the page that was written, grow it again: the page comes back with the old
      contents instead of zeros. */
  lemma RegrowthExample()
    ensures var k := Reached([], HeapOps());
            && BrkOk(k, 0, LOW) && Brk(k, 0, LOW).Some?
            && var j := Brk(k, 0, LOW).value;
               && BrkOk(j, 0, HIGH) && Brk(j, 0, HIGH).Some? && AtPage(j, 0, USER_LOW + 1) == None
               && View(Brk(j, 0, HIGH).value, 0, USER_LOW + 1) == Some(Splice(ZeroPage(), 0, [1]))
               && Splice(ZeroPage(), 0, [1]) != ZeroPage()
  {
    var k := Reached([], HeapOps());
    RunInv([], HeapOps());
    assert Inv(k);
    HeapWritten();
    hide Reached, HeapOps, Inv;
    HeapShrinks(k);
    HeapGrows(Brk(k, 0, LOW).value);
    assert Run(Brk(k, 0, LOW).value, []) == Brk(k, 0, LOW).value;
    BrkGivesBack([], HeapOps(), 0, LOW, [], HIGH, USER_LOW + 1);
    assert Splice(ZeroPage(), 0, [1])[0] == 1;
  }

  /** A brk back to the start of the break, when that is page-aligned, succeeds and leaves no heap area for
      the next brk to look up. */
  lemma HeapVanishes()
    ensures var k, start := Reached([], HeapOps()[..2]), USER_LOW * PAGE_SIZE;
            && HeapFound(k, 0) && k.spaces[0].startBrk == start
            && BrkOk(k, 0, start) && Brk(k, 0, start).Some? && !HeapFound(Brk(k, 0, start).value, 0)
  {
    var k := Reached([], HeapOps()[..2]);
    RunInv([], HeapOps()[..2]);
    HeapMapped();
    HeapReached();
    hide Reached, HeapOps, Mmap;
    assert Find(k.spaces[0].areas, USER_LOW) == Some(0);
    assert PageUp(USER_LOW * PAGE_SIZE) == USER_LOW;
    BrkKeepsHeap(k, 0, USER_LOW * PAGE_SIZE);
  }

  lemma HeapShrinks(k: State)
    requires Inv(k) && |k.spaces| == 1 && k.files == multiset{} && k.spaces[0].startBrk == USER_LOW * PAGE_SIZE
    requires k.spaces[0].areas == [Area(USER_LOW, USER_LOW + 2, 0, Prot(true, true, false), false, 1)]
    ensures BrkOk(k, 0, LOW) && Brk(k, 0, LOW).Some? && GivesUp(k, 0, LOW, USER_LOW + 1)
    ensures var j := Brk(k, 0, LOW).value;
            && |j.spaces| == 1 && j.spaces[0].startBrk == USER_LOW * PAGE_SIZE
            && j.spaces[0].areas == [Area(USER_LOW, USER_LOW + 1, 0, Prot(true, true, false), false, 1)]
  {
    var s := k.spaces[0].areas;
    assert Find(s, USER_LOW) == Some(0);
    hide Inv;
    assert PageUp(LOW) == USER_LOW + 1;
    SortedOf(k, 0);
    CutTail(s, 0, USER_LOW + 1);
    BrkKeepsHeap(k, 0, LOW);
  }

  lemma HeapGrows(j: State)
    requires |j.spaces| == 1 && j.spaces[0].startBrk == USER_LOW * PAGE_SIZE
    requires j.spaces[0].areas == [Area(USER_LOW, USER_LOW + 1, 0, Prot(true, true, false), false, 1)]
    ensures BrkOk(j, 0, HIGH) && Brk(j, 0, HIGH).Some? && TakesAgain(j, 0, HIGH, USER_LOW + 1)
  {
    var s := j.spaces[0].areas;
    assert Find(s, USER_LOW) == Some(0);
    assert PageUp(HIGH) == USER_LOW + 2;
    assert RangeEmpty(s, USER_LOW + 1, USER_LOW + 2);
  }
}
