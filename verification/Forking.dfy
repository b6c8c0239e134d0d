/** fork: every private area is split into two new shadows over the object it had. */
module Forking {
  import opened Wrappers
  import opened Areas
  import opened Objects
  import opened Overlay
  import opened Kernel
  import opened Holders
  import opened Removal
  import opened Creation

  // ----- Counts -----

  lemma ForkPrivateKeeps(h: Heap, s: nat, m: multiset<nat>)
    requires Valid(h, m + multiset{s}) && IsShadow(h, s)
    ensures var b := BottomOf(h, s);
            Valid(Ref(Ref(Ref(h, s), b), b) + [Obj(1, map[], Shadow(s, b))] + [Obj(1, map[], Shadow(s, b))],
                  m + multiset{|h|} + multiset{|h| + 1})
  {
    var b := BottomOf(h, s);
    assert LinkOk(h, s, h[s].kind.shadowed, b);
    var h1 := Ref(h, s);
    var h2 := Ref(h1, b);
    var h3 := Ref(h2, b);
    RefKeeps(h, s, m + multiset{s});
    RefKeeps(h1, b, m + multiset{s} + multiset{s});
    RefKeeps(h2, b, m + multiset{s} + multiset{s} + multiset{b});
    var r := m + multiset{s} + multiset{b};
    assert m + multiset{s} + multiset{s} + multiset{b} + multiset{b} == r + multiset{s} + multiset{b};
    AppendShadow(h3, s, b, r);
    var h4 := h3 + [Obj(1, map[], Shadow(s, b))];
    assert r + multiset{|h|} == m + multiset{|h|} + multiset{s} + multiset{b};
    AppendShadow(h4, s, b, m + multiset{|h|});
  }

  lemma ForkOneKeeps(h: Heap, a: Area, m: multiset<nat>)
    requires Valid(h, m + multiset{a.obj}) && Live(h, a.obj) && a.shared == !IsShadow(h, a.obj)
    ensures Valid(ForkOne(h, a).heap, m + ObjsOf(ForkOne(h, a).parent) + ObjsOf(ForkOne(h, a).child))
  {
    var f := ForkOne(h, a);
    ObjsOfOne(f.parent[0]);
    ObjsOfOne(f.child[0]);
    assert f.parent == [f.parent[0]] && f.child == [f.child[0]];
    if a.shared {
      RefKeeps(h, a.obj, m + multiset{a.obj});
    } else {
      ForkPrivateKeeps(h, a.obj, m);
    }
  }

  lemma ForkOneExtends(h: Heap, a: Area)
    ensures Extends(h, ForkOne(h, a).heap)
  {
  }

  lemma ExtendsTwice(f: Heap, g: Heap, h: Heap)
    requires Extends(f, g) && Extends(g, h)
    ensures Extends(f, h)
  {
  }

  ghost predicate AreasKindsOk(h: Heap, s: seq<Area>) {
    forall i | 0 <= i < |s| :: Live(h, s[i].obj) && s[i].shared == !IsShadow(h, s[i].obj)
  }

  lemma {:induction false} ForkAllKeeps(h: Heap, s: seq<Area>, m: multiset<nat>)
    requires Valid(h, m + ObjsOf(s)) && AreasKindsOk(h, s)
    ensures Valid(ForkAll(h, s).heap, m + ObjsOf(ForkAll(h, s).parent) + ObjsOf(ForkAll(h, s).child))
    ensures Extends(h, ForkAll(h, s).heap)
  {
    if s == [] {
      assert m + ObjsOf([]) + ObjsOf([]) == m + ObjsOf(s);
    } else {
      var t, a := s[..|s| - 1], s[|s| - 1];
      assert m + ObjsOf(s) == m + multiset{a.obj} + ObjsOf(t);
      ForkAllKeeps(h, t, m + multiset{a.obj});
      var f := ForkAll(h, t);
      var g := ForkOne(f.heap, a);
      var r := m + ObjsOf(f.parent) + ObjsOf(f.child);
      assert m + multiset{a.obj} + ObjsOf(f.parent) + ObjsOf(f.child) == r + multiset{a.obj};
      ForkOneKeeps(f.heap, a, r);
      ForkOneExtends(f.heap, a);
      ExtendsTwice(h, f.heap, g.heap);
      ForkSum(m, f, g);
    }
  }

  lemma ForkSum(m: multiset<nat>, f: Forked, g: Forked)
    ensures m + ObjsOf(f.parent) + ObjsOf(f.child) + ObjsOf(g.parent) + ObjsOf(g.child) ==
            m + ObjsOf(f.parent + g.parent) + ObjsOf(f.child + g.child)
  {
    ObjsOfAppend(f.parent, g.parent);
    ObjsOfAppend(f.child, g.child);
  }

  // ----- Shape -----

  /** x is a new, empty shadow over o. */
  predicate NewTop(h: Heap, g: Heap, o: nat, x: nat) {
    |h| <= x < |g| && IsShadow(g, x) && g[x].pages == map[] && g[x].kind.shadowed == o
  }

  function WithObj(a: Area, o: nat): Area {
    Area(a.start, a.end, a.off, a.prot, a.shared, o)
  }

  /** What fork makes of one area, in the parent and in the child. */
  predicate ForkedArea(h: Heap, g: Heap, a: Area, pa: Area, ca: Area) {
    if a.shared then pa == a && ca == a
    else
      && pa == WithObj(a, pa.obj) && ca == WithObj(a, ca.obj)
      && NewTop(h, g, a.obj, pa.obj) && NewTop(h, g, a.obj, ca.obj) && pa.obj < ca.obj
  }

  /** The tops of different areas are different. */
  ghost predicate Spread(f: Forked) {
    forall i, j | 0 <= i < j < |f.parent| && j < |f.child| && !f.child[i].shared && !f.parent[j].shared ::
      f.child[i].obj < f.parent[j].obj
  }

  /** The object x shadows is that of a private area of s. */
  ghost predicate ShadowsArea(h: Heap, s: seq<Area>, x: nat)
    requires IsShadow(h, x)
  {
    exists a: Area :: a in s && !a.shared && a.obj == h[x].kind.shadowed
  }

  ghost predicate AreasForked(h: Heap, g: Heap, s: seq<Area>, ps: seq<Area>, cs: seq<Area>) {
    && |ps| == |s| && |cs| == |s|
    && forall i | 0 <= i < |s| :: ForkedArea(h, g, s[i], ps[i], cs[i])
  }

  ghost predicate NewShadowsOver(h: Heap, g: Heap, s: seq<Area>) {
    forall x: nat | x >= |h| && IsShadow(g, x) :: ShadowsArea(g, s, x)
  }

  /** The shadows that are new in g all lie over the object of a. */
  ghost predicate OnlyShadows(h: Heap, g: Heap, a: Area) {
    forall x: nat | x >= |h| && IsShadow(g, x) :: !a.shared && g[x].kind.shadowed == a.obj
  }

  lemma ForkOneShape(h: Heap, a: Area)
    ensures var f := ForkOne(h, a);
            && |f.parent| == 1 && |f.child| == 1
            && ForkedArea(h, f.heap, a, f.parent[0], f.child[0])
    ensures Extends(h, ForkOne(h, a).heap) && OnlyShadows(h, ForkOne(h, a).heap, a)
  {
  }

  lemma ForkedAreaKept(h: Heap, e: Heap, g: Heap, a: Area, pa: Area, ca: Area)
    requires ForkedArea(h, e, a, pa, ca) && Extends(e, g)
    ensures ForkedArea(h, g, a, pa, ca)
    ensures !a.shared ==> pa.obj < |e| && ca.obj < |e|
  {
  }

  lemma ForkedAreaNew(h: Heap, e: Heap, g: Heap, a: Area, pa: Area, ca: Area)
    requires ForkedArea(e, g, a, pa, ca) && |h| <= |e|
    ensures ForkedArea(h, g, a, pa, ca)
    ensures !a.shared ==> |e| <= pa.obj
  {
  }

  lemma SpreadStep(e: Forked, pa: Area, ca: Area, n: nat, g: Heap)
    requires Spread(e) && |e.parent| == |e.child|
    requires forall i | 0 <= i < |e.child| && !e.child[i].shared :: e.child[i].obj < n
    requires !pa.shared ==> n <= pa.obj
    ensures Spread(Forked(g, e.parent + [pa], e.child + [ca]))
  {
  }

  lemma AreasStep(h: Heap, t: seq<Area>, e: Forked, a: Area, g: Heap, pa: Area, ca: Area)
    requires AreasForked(h, e.heap, t, e.parent, e.child) && Extends(e.heap, g)
    requires ForkedArea(h, g, a, pa, ca)
    ensures AreasForked(h, g, t + [a], e.parent + [pa], e.child + [ca])
  {
    forall i | 0 <= i < |t|
      ensures ForkedArea(h, g, t[i], e.parent[i], e.child[i])
    {
      ForkedAreaKept(h, e.heap, g, t[i], e.parent[i], e.child[i]);
    }
  }

  lemma ChildBelow(h: Heap, t: seq<Area>, e: Forked)
    requires AreasForked(h, e.heap, t, e.parent, e.child)
    ensures forall i | 0 <= i < |t| && !e.child[i].shared :: e.child[i].obj < |e.heap|
  {
    forall i | 0 <= i < |t| && !e.child[i].shared
      ensures e.child[i].obj < |e.heap|
    {
      assert ForkedArea(h, e.heap, t[i], e.parent[i], e.child[i]);
    }
  }

  lemma ShadowsStep(h: Heap, t: seq<Area>, e: Heap, a: Area, g: Heap)
    requires NewShadowsOver(h, e, t) && Extends(h, e) && Extends(e, g) && OnlyShadows(e, g, a)
    ensures NewShadowsOver(h, g, t + [a])
  {
    forall x: nat | x >= |h| && IsShadow(g, x)
      ensures ShadowsArea(g, t + [a], x)
    {
      if x < |e| {
        assert ShadowsArea(e, t, x);
        var b: Area :| b in t && !b.shared && b.obj == e[x].kind.shadowed;
        assert b in t + [a];
      } else {
        assert a in t + [a];
      }
    }
  }

  lemma {:induction false} ForkAllAreas(h: Heap, s: seq<Area>)
    ensures |h| <= |ForkAll(h, s).heap|
    ensures AreasForked(h, ForkAll(h, s).heap, s, ForkAll(h, s).parent, ForkAll(h, s).child)
    ensures Spread(ForkAll(h, s))
  {
    if s != [] {
      hide ForkOne, ForkedArea, Spread, AreasForked, Extends, OnlyShadows;
      var t, a := s[..|s| - 1], s[|s| - 1];
      ForkAllAreas(h, t);
      var e := ForkAll(h, t);
      var g := ForkOne(e.heap, a);
      ForkOneShape(e.heap, a);
      var pa, ca := g.parent[0], g.child[0];
      ForkedAreaNew(h, e.heap, g.heap, a, pa, ca);
      AreasStep(h, t, e, a, g.heap, pa, ca);
      ChildBelow(h, t, e);
      SpreadStep(e, pa, ca, |e.heap|, g.heap);
      assert s == t + [a] && g.parent == [pa] && g.child == [ca];
    }
  }

  lemma {:induction false} ForkAllShadows(h: Heap, s: seq<Area>)
    ensures Extends(h, ForkAll(h, s).heap) && NewShadowsOver(h, ForkAll(h, s).heap, s)
  {
    if s != [] {
      var t, a := s[..|s| - 1], s[|s| - 1];
      ForkAllShadows(h, t);
      var e := ForkAll(h, t).heap;
      var g := ForkOne(e, a).heap;
      ForkOneShape(e, a);
      ExtendsTwice(h, e, g);
      ShadowsStep(h, t, e, a, g);
      assert s == t + [a];
    }
  }

  // ----- The invariant -----

  lemma ForkValid(k: State, p: nat)
    requires Inv(k) && p < |k.spaces|
    ensures Valid(Fork(k, p).heap, Refs(Fork(k, p)))
  {
    var s := k.spaces[p];
    var f := ForkAll(k.heap, s.areas);
    var x, y := Space(f.parent, map[], s.startBrk, s.brk), Space(f.child, map[], s.startBrk, s.brk);
    RefsSplit(k, p);
    forall i | 0 <= i < |s.areas|
      ensures Live(k.heap, s.areas[i].obj) && s.areas[i].shared == !IsShadow(k.heap, s.areas[i].obj)
    {
      assert HasArea(k, p, s.areas[i]);
    }
    ForkAllKeeps(k.heap, s.areas, OtherRefs(k, p));
    RefsOfUpdate(k, p, f.heap, x);
    var sp := k.spaces[p := x];
    assert (sp + [y])[..|sp|] == sp;
    assert AreaRefs(sp + [y]) == AreaRefs(sp) + ObjsOf(f.child);
    assert Refs(Fork(k, p)) == OtherRefs(k, p) + ObjsOf(f.parent) + ObjsOf(f.child);
  }

  lemma SameBoundsSorted(s: seq<Area>, t: seq<Area>)
    requires Sorted(s) && |t| == |s|
    requires forall i | 0 <= i < |s| :: t[i].start == s[i].start && t[i].end == s[i].end
    ensures Sorted(t)
  {
  }

  lemma ForkAllSorted(h: Heap, s: seq<Area>)
    requires Sorted(s)
    ensures Sorted(ForkAll(h, s).parent) && Sorted(ForkAll(h, s).child)
  {
    var f := ForkAll(h, s);
    ForkAllAreas(h, s);
    forall i | 0 <= i < |s|
      ensures f.parent[i].start == f.child[i].start == s[i].start && f.parent[i].end == f.child[i].end == s[i].end
    {
      assert ForkedArea(h, f.heap, s[i], f.parent[i], f.child[i]);
    }
    SameBoundsSorted(s, f.parent);
    SameBoundsSorted(s, f.child);
  }

  lemma ForkSorted(k: State, p: nat)
    requires Inv(k) && p < |k.spaces|
    ensures AllSorted(Fork(k, p))
  {
    ForkAllSorted(k.heap, k.spaces[p].areas);
  }

  /** The areas of a forked state: those of bystanders and shared ones are as before, private ones
      of parent and child have new tops. */
  predicate IsNew(k: State, p: nat, q: nat, b: Area) {
    (q == p || q == |k.spaces|) && !b.shared
  }

  lemma ForkAreaIs(k: State, p: nat, q: nat, b: Area)
    requires Inv(k) && p < |k.spaces| && HasArea(Fork(k, p), q, b)
    ensures IsNew(k, p, q, b) ==> b.obj >= |k.heap| && IsShadow(Fork(k, p).heap, b.obj)
    ensures !IsNew(k, p, q, b) ==> HasArea(k, if q == |k.spaces| then p else q, b)
  {
    var s := k.spaces[p].areas;
    var f := ForkAll(k.heap, s);
    ForkAllAreas(k.heap, s);
    if q == p || q == |k.spaces| {
      var i :| 0 <= i < |s| && b == if q == p then f.parent[i] else f.child[i];
      assert ForkedArea(k.heap, f.heap, s[i], f.parent[i], f.child[i]);
    }
  }

  lemma ForkKinds(k: State, p: nat)
    requires Inv(k) && p < |k.spaces|
    ensures KindsOk(Fork(k, p)) && FilesOk(Fork(k, p))
  {
    var j := Fork(k, p);
    ForkAllShadows(k.heap, k.spaces[p].areas);
    forall q: nat, b: Area | HasArea(j, q, b)
      ensures Live(j.heap, b.obj) && b.shared == !IsShadow(j.heap, b.obj)
    {
      ForkAreaIs(k, p, q, b);
    }
    ForkFiles(k, p);
  }

  lemma {:induction false} ForkAllNoFiles(h: Heap, s: seq<Area>, o: nat)
    requires o >= |h|
    ensures !IsFile(ForkAll(h, s).heap, o)
  {
    if s != [] {
      ForkAllNoFiles(h, s[..|s| - 1], o);
    }
  }

  lemma ForkFiles(k: State, p: nat)
    requires Inv(k) && p < |k.spaces|
    ensures FilesOk(Fork(k, p))
  {
    var j := Fork(k, p);
    ForkAllShadows(k.heap, k.spaces[p].areas);
    forall o: nat | Live(j.heap, o)
      ensures IsFile(j.heap, o) == (o in j.files)
    {
      assert ExactAt(k.heap, Refs(k), o);
      if o >= |k.heap| {
        ForkAllNoFiles(k.heap, k.spaces[p].areas, o);
      }
    }
  }

  lemma ForkUnshadowed(k: State, p: nat, q: nat, b: Area)
    requires Inv(k) && p < |k.spaces| && HasArea(Fork(k, p), q, b) && !b.shared
    ensures Unshadowed(Fork(k, p).heap, b.obj)
  {
    var s := k.spaces[p].areas;
    var g := Fork(k, p).heap;
    ForkAllShadows(k.heap, s);
    ForkAreaIs(k, p, q, b);
    forall x: nat | IsShadow(g, x)
      ensures g[x].kind.shadowed != b.obj
    {
      if x < |k.heap| {
        assert LinkOk(k.heap, x, k.heap[x].kind.shadowed, k.heap[x].kind.bottom);
        if !IsNew(k, p, q, b) {
          assert Unshadowed(k.heap, b.obj);
        }
      } else {
        assert ShadowsArea(g, s, x);
        var a: Area :| a in s && !a.shared && a.obj == g[x].kind.shadowed;
        assert HasArea(k, p, a);
      }
    }
  }

  /** The i-th area of the parent, or of the child. */
  function Pick(f: Forked, parent: bool, i: nat): Area
    requires i < |f.parent| == |f.child|
  {
    if parent then f.parent[i] else f.child[i]
  }

  lemma PicksDiffer(h: Heap, s: seq<Area>, f: Forked, x: bool, i: nat, y: bool, j: nat)
    requires AreasForked(h, f.heap, s, f.parent, f.child) && Spread(f) && i < |s| && j < |s|
    requires !Pick(f, x, i).shared && !Pick(f, y, j).shared && Pick(f, x, i).obj == Pick(f, y, j).obj
    ensures x == y && i == j
  {
    assert ForkedArea(h, f.heap, s[i], f.parent[i], f.child[i]);
    assert ForkedArea(h, f.heap, s[j], f.parent[j], f.child[j]);
  }

  lemma Picked(k: State, p: nat, q: nat, a: Area) returns (i: nat)
    requires p < |k.spaces| && HasArea(Fork(k, p), q, a) && IsNew(k, p, q, a)
    ensures var f := ForkAll(k.heap, k.spaces[p].areas);
            i < |k.spaces[p].areas| == |f.parent| == |f.child| && Pick(f, q == p, i) == a
  {
    hide Extends, ForkedArea, Spread;
    var s := k.spaces[p].areas;
    var f := ForkAll(k.heap, s);
    ForkAllAreas(k.heap, s);
    hide ForkAll;
    if q == p {
      assert a in f.parent;
      i :| i < |f.parent| && f.parent[i] == a;
    } else {
      assert a in f.child;
      i :| i < |f.child| && f.child[i] == a;
    }
  }

  /** No two new areas have the same top. */
  lemma NewTopsDiffer(k: State, p: nat, q: nat, a: Area, r: nat, b: Area)
    requires Inv(k) && p < |k.spaces| && HasArea(Fork(k, p), q, a) && HasArea(Fork(k, p), r, b)
    requires IsNew(k, p, q, a) && IsNew(k, p, r, b) && a.obj == b.obj
    ensures q == r && a == b
  {
    var s := k.spaces[p].areas;
    var f := ForkAll(k.heap, s);
    ForkAllAreas(k.heap, s);
    var i := Picked(k, p, q, a);
    var j := Picked(k, p, r, b);
    hide Inv, ForkAll, AreasForked, Spread;
    PicksDiffer(k.heap, s, f, q == p, i, r == p, j);
  }

  lemma ForkOwned(k: State, p: nat)
    requires Inv(k) && p < |k.spaces|
    ensures TopsOwned(Fork(k, p))
  {
    var j := Fork(k, p);
    forall q: nat, a: Area, r: nat, b: Area
      | HasArea(j, q, a) && HasArea(j, r, b) && !a.shared && a.obj == b.obj
      ensures q == r && Like(a, b)
    {
      ForkAreaIs(k, p, q, a);
      ForkAreaIs(k, p, r, b);
      if IsNew(k, p, q, a) && IsNew(k, p, r, b) {
        NewTopsDiffer(k, p, q, a, r, b);
      }
    }
  }

  lemma ForkInv(k: State, p: nat)
    requires Inv(k) && p < |k.spaces|
    ensures Inv(Fork(k, p))
  {
    var j := Fork(k, p);
    ForkValid(k, p);
    ForkSorted(k, p);
    ForkKinds(k, p);
    ForkOwned(k, p);
    forall q: nat, b: Area | HasArea(j, q, b) && !b.shared
      ensures Unshadowed(j.heap, b.obj)
    {
      ForkUnshadowed(k, p, q, b);
    }
    ForkAllShadows(k.heap, k.spaces[p].areas);
    forall q: nat, v: nat | q < |j.spaces| && v in j.spaces[q].ptes
      ensures PteOk(j.heap, AtPage(j, q, v), j.spaces[q].ptes[v])
    {
      assert PteOk(k.heap, AtPage(k, q, v), k.spaces[q].ptes[v]);
    }
  }
}
