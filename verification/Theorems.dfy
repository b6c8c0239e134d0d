/** What every run of the kernel promises its processes. */
module Theorems {
  import opened Wrappers
  import opened Areas
  import opened Objects
  import opened Overlay
  import opened Reachability
  import opened Kernel
  import opened Holders
  import opened Flat
  import opened Access
  import opened Removal
  import opened Creation
  import opened Forking
  import opened Representation
  import opened Runs

  function Reached(stores: seq<map<nat, Page>>, ops: seq<Op>): State {
    Run(Boot(stores), ops)
  }

  function FlatReached(stores: seq<map<nat, Page>>, ops: seq<Op>): FState {
    FRun(FBoot(stores), Trace(Boot(stores), ops))
  }

  // ----- Isolation -----

  /** No other page of the process stands for the same page of the same region. */
  predicate Alone(f: FState, p: nat, v: nat, q: nat, w: nat) {
    HasRegion(f, p, v) && HasRegion(f, q, w) && q == p && w != v ==>
      f.mem[p].pages[w].ref != f.mem[p].pages[v].ref || f.mem[p].pages[w].n != f.mem[p].pages[v].n
  }

  /** A flat write changes what is seen exactly where the written cell is shown. */
  lemma FlatWriteSeen(f: FState, p: nat, v: nat, at: nat, bytes: seq<Byte>, q: nat, w: nat)
    requires at + |bytes| <= PAGE_SIZE && FView(f, p, v).Some? && Alone(f, p, v, q, w)
    requires FAt(f, p, v).value.shared <==> !HasRegion(f, p, v)
    ensures FView(Write(f, p, v, at, bytes), q, w) ==
            if (q == p && w == v) ||
               (FAt(f, p, v).value.shared && FAt(f, q, w).Some? && FAt(f, q, w).value.cell == FAt(f, p, v).value.cell)
            then Some(Splice(FView(f, p, v).value, at, bytes))
            else FView(f, q, w)
  {
  }

  /** Each page of a region is shown once. */
  lemma AloneInSim(k: State, f: FState, p: nat, v: nat, q: nat, w: nat)
    requires Inv(k) && Sim(k, f)
    ensures Alone(f, p, v, q, w)
    ensures FAt(f, p, v).Some? ==> (FAt(f, p, v).value.shared <==> !HasRegion(f, p, v))
  {
    if p < |f.mem| { TiedOf(k, f, p, v); }
    if HasRegion(f, p, v) && HasRegion(f, q, w) && q == p && w != v {
      TiedOf(k, f, p, w);
      SameRegion(k, f, p, v, w);
      hide Sim, Inv;
      if f.mem[p].pages[w].ref == f.mem[p].pages[v].ref && f.mem[p].pages[w].n == f.mem[p].pages[v].n {
        OnePlace(k, p, v, p, w);
      }
    }
  }

  /** Copy-on-write isolation, in every reachable state: a write through a private page is seen at
      that page of that process and nowhere else, whatever chains of shadows processes share. */
  lemma PrivateWriteIsolated(stores: seq<map<nat, Page>>, ops: seq<Op>,
                             p: nat, v: nat, at: nat, bytes: seq<Byte>, q: nat, w: nat)
    requires at + |bytes| <= PAGE_SIZE
    requires var k := Reached(stores, ops);
             AtPage(k, p, v).Some? && !AtPage(k, p, v).value.shared && View(k, p, v).Some?
    ensures var k := Reached(stores, ops);
            View(KernelWrite(k, p, v, at, bytes), q, w) ==
            if q == p && w == v then Some(Splice(View(k, p, v).value, at, bytes)) else View(k, q, w)
  {
    var k, f := Reached(stores, ops), FlatReached(stores, ops);
    RunInv(stores, ops);
    RunRefines(stores, ops);
    WriteSeen(k, f, p, v, at, bytes, q, w);
  }

  /** The same for a shared page: the write is seen exactly by the pages whose cell is that page of
      that object, in any process. */
  lemma SharedWriteSeen(stores: seq<map<nat, Page>>, ops: seq<Op>,
                        p: nat, v: nat, at: nat, bytes: seq<Byte>, q: nat, w: nat)
    requires at + |bytes| <= PAGE_SIZE
    requires var k := Reached(stores, ops);
             AtPage(k, p, v).Some? && AtPage(k, p, v).value.shared && View(k, p, v).Some?
    ensures var k := Reached(stores, ops);
            View(KernelWrite(k, p, v, at, bytes), q, w) ==
            if PageOf(k, q, w).Some? && PageOf(k, q, w).value.cell == PageOf(k, p, v).value.cell
            then Some(Splice(View(k, p, v).value, at, bytes))
            else View(k, q, w)
  {
    var k, f := Reached(stores, ops), FlatReached(stores, ops);
    RunInv(stores, ops);
    RunRefines(stores, ops);
    WriteSeen(k, f, p, v, at, bytes, q, w);
  }

  lemma WriteSeen(k: State, f: FState, p: nat, v: nat, at: nat, bytes: seq<Byte>, q: nat, w: nat)
    requires Inv(k) && Sim(k, f) && at + |bytes| <= PAGE_SIZE && View(k, p, v).Some?
    ensures FAt(f, p, v) == PageOf(k, p, v) && FAt(f, q, w) == PageOf(k, q, w)
    ensures View(KernelWrite(k, p, v, at, bytes), q, w) ==
            if (q == p && w == v) ||
               (FAt(f, p, v).value.shared && FAt(f, q, w).Some? && FAt(f, q, w).value.cell == FAt(f, p, v).value.cell)
            then Some(Splice(View(k, p, v).value, at, bytes))
            else View(k, q, w)
  {
    KernelWriteSim(k, f, p, v, at, bytes);
    KernelWriteInv(k, p, v, at, bytes);
    SimView(k, f, p, v);
    SimView(k, f, q, w);
    SimView(KernelWrite(k, p, v, at, bytes), Write(f, p, v, at, bytes), q, w);
    assert FAt(f, p, v) == PageOf(k, p, v);
    assert FAt(f, q, w) == PageOf(k, q, w);
    AloneInSim(k, f, p, v, q, w);
    hide Inv, Sim, View, KernelWrite, Write;
    FlatWriteSeen(f, p, v, at, bytes, q, w);
  }

  // ----- fork is a snapshot -----

  /** Right after fork the child sees what the parent saw and has its break, and everyone else, the parent
      included, sees what it saw and has the break it had before; shared pages show one common object, and
      parent and child start with empty page tables. */
  lemma ForkSnapshot(stores: seq<map<nat, Page>>, ops: seq<Op>, p: nat, q: nat, v: nat)
    requires p < |Reached(stores, ops).spaces|
    ensures var k := Reached(stores, ops);
            var j := Fork(k, p);
            && View(j, q, v) == View(k, if q == |k.spaces| then p else q, v)
            && PageOf(j, q, v) == PageOf(k, if q == |k.spaces| then p else q, v)
    ensures var k := Reached(stores, ops);
            var j := Fork(k, p);
            && |j.spaces| == |k.spaces| + 1 && j.spaces[p].ptes == j.spaces[|k.spaces|].ptes == map[]
            && (q <= |k.spaces| ==>
                  var s := k.spaces[if q == |k.spaces| then p else q];
                  j.spaces[q].startBrk == s.startBrk && j.spaces[q].brk == s.brk)
    ensures var k := Reached(stores, ops);
            AtPage(k, p, v).Some? && AtPage(k, p, v).value.shared ==>
              AtPage(Fork(k, p), |k.spaces|, v) == AtPage(Fork(k, p), p, v) == AtPage(k, p, v)
  {
    var k, f := Reached(stores, ops), FlatReached(stores, ops);
    RunInv(stores, ops);
    RunRefines(stores, ops);
    ForkInv(k, p);
    ForkSim(k, f, p);
    ForkSpaces(k, p, q);
    hide Fork;
    var g := FStep(f, FFork(p));
    SimView(Fork(k, p), g, q, v);
    ForkPage(k, f, p, q, v);
    if AtPage(k, p, v).Some? && AtPage(k, p, v).value.shared { ForkShared(k, p, v); }
  }

  lemma ForkSpaces(k: State, p: nat, q: nat)
    requires p < |k.spaces|
    ensures var j := Fork(k, p);
            && |j.spaces| == |k.spaces| + 1 && j.spaces[p].ptes == j.spaces[|k.spaces|].ptes == map[]
            && (q <= |k.spaces| ==>
                  var s := k.spaces[if q == |k.spaces| then p else q];
                  j.spaces[q].startBrk == s.startBrk && j.spaces[q].brk == s.brk)
  {
  }

  lemma ForkShared(k: State, p: nat, v: nat)
    requires Inv(k) && p < |k.spaces| && AtPage(k, p, v).Some? && AtPage(k, p, v).value.shared
    ensures AtPage(Fork(k, p), |k.spaces|, v) == AtPage(Fork(k, p), p, v) == AtPage(k, p, v)
  {
    var s := k.spaces[p].areas;
    var f := ForkAll(k.heap, s);
    ForkAllAreas(k.heap, s);
    ForkAllSorted(k.heap, s);
    var i := Find(s, v).value;
    assert ForkedArea(k.heap, f.heap, s[i], f.parent[i], f.child[i]);
    AtIs(f.parent, i, v);
    AtIs(f.child, i, v);
  }

  // ----- Reference counts -----

  lemma {:induction false} HolderIs(sp: seq<Space>, o: nat) returns (p: nat, a: Area)
    requires o in AreaRefs(sp)
    ensures p < |sp| && a in sp[p].areas && a.obj == o
  {
    var n := |sp| - 1;
    if o in ObjsOf(sp[n].areas) {
      p := n;
      a := AreaWith(sp[n].areas, o);
    } else {
      p, a := HolderIs(sp[..n], o);
    }
  }

  lemma {:induction false} AreaWith(s: seq<Area>, o: nat) returns (a: Area)
    requires o in ObjsOf(s)
    ensures a in s && a.obj == o
  {
    a := s[|s| - 1];
    if a.obj != o {
      a := AreaWith(s[..|s| - 1], o);
    }
  }

  /** In every reachable state the count of every object is the number of areas that show it, of
      shadows over it, of shadows with it as bottom, of its resident pages, and of the references
      the file system holds. */
  lemma CountsAreExact(stores: seq<map<nat, Page>>, ops: seq<Op>, o: nat)
    requires Live(Reached(stores, ops).heap, o)
    ensures var k := Reached(stores, ops);
            && k.heap[o].refs == AreaRefs(k.spaces)[o] + Pointers(k.heap, o) + |k.heap[o].pages| + k.files[o]
            && (IsFile(k.heap, o) <==> k.files[o] > 0)
  {
    RunInv(stores, ops);
    var k := Reached(stores, ops);
    assert ExactAt(k.heap, Refs(k), o);
  }

  /** And exactly those anonymous and shadow objects are allocated that some area still reaches. */
  lemma LiveIffMapped(stores: seq<map<nat, Page>>, ops: seq<Op>, o: nat)
    ensures var k := Reached(stores, ops);
            !IsFile(k.heap, o) ==>
              (Live(k.heap, o) <==> exists p: nat, a: Area :: HasArea(k, p, a) && Reaches(k.heap, a.obj, o))
  {
    RunInv(stores, ops);
    var k := Reached(stores, ops);
    if Live(k.heap, o) && !IsFile(k.heap, o) {
      LiveIsHeld(k.heap, Refs(k), o);
      var r: nat :| r in Refs(k) && Reaches(k.heap, r, o);
      assert ExactAt(k.heap, Refs(k), r);
      assert r in k.files ==> IsFile(k.heap, r) && r == o;
      var p, a := HolderIs(k.spaces, r);
      assert HasArea(k, p, a);
    }
    if p: nat, a: Area :| HasArea(k, p, a) && Reaches(k.heap, a.obj, o) {
      assert Live(k.heap, a.obj);
      ReachesLive(k.heap, a.obj, o);
    }
  }
}
