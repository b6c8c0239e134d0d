/** Removing mappings: munmap, exit and a shrinking break. */
module Removal {
  import opened Wrappers
  import opened Areas
  import opened Objects
  import opened Overlay
  import opened Kernel
  import opened Holders

  lemma ShrunkTwice(f: Heap, g: Heap, h: Heap)
    requires Shrunk(f, g) && Shrunk(g, h)
    ensures Shrunk(f, h)
  {
  }

  lemma CutEffectKeeps(h: Heap, a: Area, lo: nat, hi: nat, r: multiset<nat>)
    requires lo <= hi && ValidArea(a) && Valid(h, r + multiset{a.obj})
    ensures Valid(CutEffect(h, a, lo, hi), r + ObjsOf(Cut(a, lo, hi)))
    ensures Shrunk(h, CutEffect(h, a, lo, hi))
  {
    var c := Cut(a, lo, hi);
    if |c| == 2 {
      assert c == [c[0]] + [c[1]];
      ObjsOfAppend([c[0]], [c[1]]);
      ObjsOfOne(c[0]);
      ObjsOfOne(c[1]);
      assert ExactAt(h, r + multiset{a.obj}, a.obj);
      RefKeeps(h, a.obj, r + multiset{a.obj});
      assert r + multiset{a.obj} + multiset{a.obj} == r + ObjsOf(c);
    } else if |c| == 0 {
      PutKeeps(h, a.obj, r);
      assert r + ObjsOf(c) == r;
    } else {
      ObjsOfOne(c[0]);
      assert c == [c[0]];
    }
  }

  /** Split, trimmed and dropped areas leave every count exact. */
  lemma {:induction false} CutHeapKeeps(h: Heap, s: seq<Area>, lo: nat, hi: nat, r: multiset<nat>)
    requires lo <= hi && Sorted(s) && Valid(h, r + ObjsOf(s))
    ensures Valid(CutHeap(h, s, lo, hi), r + ObjsOf(CutAll(s, lo, hi)))
    ensures Shrunk(h, CutHeap(h, s, lo, hi))
  {
    if s != [] {
      var t, a := s[..|s| - 1], s[|s| - 1];
      assert r + ObjsOf(s) == r + multiset{a.obj} + ObjsOf(t);
      CutHeapKeeps(h, t, lo, hi, r + multiset{a.obj});
      var g, c := CutHeap(h, t, lo, hi), CutAll(t, lo, hi);
      assert r + multiset{a.obj} + ObjsOf(c) == r + ObjsOf(c) + multiset{a.obj};
      CutEffectKeeps(g, a, lo, hi, r + ObjsOf(c));
      ObjsOfAppend(c, Cut(a, lo, hi));
      assert r + ObjsOf(c) + ObjsOf(Cut(a, lo, hi)) == r + ObjsOf(CutAll(s, lo, hi));
      ShrunkTwice(h, g, CutHeap(h, s, lo, hi));
    }
  }

  lemma {:induction false} PutAllKeeps(h: Heap, s: seq<Area>, r: multiset<nat>)
    requires Valid(h, r + ObjsOf(s))
    ensures Valid(PutAll(h, s), r) && Shrunk(h, PutAll(h, s))
  {
    if s == [] {
      assert r + ObjsOf(s) == r;
    } else {
      var t, a := s[..|s| - 1], s[|s| - 1];
      assert r + ObjsOf(s) == r + multiset{a.obj} + ObjsOf(t);
      PutAllKeeps(h, t, r + multiset{a.obj});
      PutKeeps(PutAll(h, t), a.obj, r);
      ShrunkTwice(h, PutAll(h, t), PutAll(h, s));
    }
  }

  // ----- States with fewer mappings -----

  /** Every area of j is part of an area of k, of the same process. */
  ghost predicate Narrowed(k: State, j: State) {
    && |j.spaces| == |k.spaces|
    && forall q: nat, b: Area | HasArea(j, q, b) :: exists a: Area :: HasArea(k, q, a) && Like(a, b)
  }

  lemma AreaLive(k: State, p: nat, a: Area)
    requires Valid(k.heap, Refs(k)) && HasArea(k, p, a)
    ensures Live(k.heap, a.obj)
  {
    ObjsOfHas(k.spaces[p].areas, a);
    RefsSplit(k, p);
    assert ExactAt(k.heap, Refs(k), a.obj);
  }

  lemma NarrowedKeeps(k: State, j: State)
    requires Inv(k) && Narrowed(k, j) && Shrunk(k.heap, j.heap) && Valid(j.heap, Refs(j)) && j.files == k.files
    ensures KindsOk(j) && FilesOk(j)
  {
    forall q: nat, b: Area | HasArea(j, q, b)
      ensures Live(j.heap, b.obj) && b.shared == !IsShadow(j.heap, b.obj)
    {
      var a: Area :| HasArea(k, q, a) && Like(a, b);
      AreaLive(j, q, b);
    }
  }

  lemma NarrowedTops(k: State, j: State)
    requires Inv(k) && Narrowed(k, j) && Shrunk(k.heap, j.heap)
    ensures TopsUnshadowed(j) && TopsOwned(j)
  {
    forall q: nat, b: Area | HasArea(j, q, b) && !b.shared
      ensures Unshadowed(j.heap, b.obj)
    {
      var a: Area :| HasArea(k, q, a) && Like(a, b);
      assert Unshadowed(k.heap, a.obj);
    }
    forall p: nat, a: Area, q: nat, b: Area
      | HasArea(j, p, a) && HasArea(j, q, b) && !a.shared && a.obj == b.obj
      ensures p == q && Like(a, b)
    {
      var a': Area :| HasArea(k, p, a') && Like(a', a);
      var b': Area :| HasArea(k, q, b') && Like(b', b);
    }
  }

  // ----- munmap -----

  lemma {:induction false} CutAllLike(s: seq<Area>, lo: nat, hi: nat, c: Area)
    requires lo <= hi && c in CutAll(s, lo, hi)
    ensures exists a: Area :: a in s && Like(a, c)
  {
    var t, a := s[..|s| - 1], s[|s| - 1];
    if c in CutAll(t, lo, hi) {
      CutAllLike(t, lo, hi, c);
      var b: Area :| b in t && Like(b, c);
      assert b in s;
    } else {
      assert c in Cut(a, lo, hi) && Like(a, c);
    }
  }

  lemma UnmapNarrows(k: State, p: nat, lo: nat, hi: nat)
    requires p < |k.spaces| && lo <= hi
    ensures Narrowed(k, Unmap(k, p, lo, hi))
  {
    var j := Unmap(k, p, lo, hi);
    forall q: nat, b: Area | HasArea(j, q, b)
      ensures exists a: Area :: HasArea(k, q, a) && Like(a, b)
    {
      if q == p {
        CutAllLike(k.spaces[p].areas, lo, hi, b);
        var a: Area :| a in k.spaces[p].areas && Like(a, b);
        assert HasArea(k, q, a);
      } else {
        assert HasArea(k, q, b) && Like(b, b);
      }
    }
  }

  lemma UnmapValid(k: State, p: nat, lo: nat, hi: nat)
    requires Inv(k) && p < |k.spaces| && lo <= hi
    ensures Valid(Unmap(k, p, lo, hi).heap, Refs(Unmap(k, p, lo, hi)))
    ensures Shrunk(k.heap, Unmap(k, p, lo, hi).heap)
    ensures AllSorted(Unmap(k, p, lo, hi))
  {
    var s := k.spaces[p].areas;
    var j := Unmap(k, p, lo, hi);
    RefsSplit(k, p);
    CutHeapKeeps(k.heap, s, lo, hi, OtherRefs(k, p));
    RefsOfUpdate(k, p, j.heap, j.spaces[p]);
    CutAllSorted(s, lo, hi);
  }

  /** The page map of p loses [lo, hi) and nothing else; other processes keep theirs. */
  lemma UnmapAt(k: State, p: nat, lo: nat, hi: nat, q: nat, v: nat)
    requires p < |k.spaces| && lo <= hi && Sorted(k.spaces[p].areas)
    ensures AtPage(Unmap(k, p, lo, hi), q, v) == if q == p && lo <= v < hi then None else AtPage(k, q, v)
    ensures q == p && !(lo <= v < hi) && StartAt(k, q, v).Some? ==>
              StartAt(Unmap(k, p, lo, hi), q, v) == Some(StartAfter(StartAt(k, q, v).value, hi, v))
    ensures q != p ==> StartAt(Unmap(k, p, lo, hi), q, v) == StartAt(k, q, v)
  {
    CutAllDenotes(k.spaces[p].areas, lo, hi, v);
  }

  /** Entries survive where their page keeps its mapping. */
  lemma PteSurvives(k: State, j: State, p: nat, v: nat)
    requires Inv(k) && Shrunk(k.heap, j.heap) && KindsOk(j)
    requires p < |k.spaces| && v in k.spaces[p].ptes && AtPage(j, p, v) == AtPage(k, p, v)
    ensures PteOk(j.heap, AtPage(j, p, v), k.spaces[p].ptes[v])
  {
    assert PteOk(k.heap, AtPage(k, p, v), k.spaces[p].ptes[v]);
    var i := Find(j.spaces[p].areas, v).value;
    assert HasArea(j, p, j.spaces[p].areas[i]);
  }

  lemma UnmapInv(k: State, p: nat, lo: nat, hi: nat)
    requires Inv(k) && p < |k.spaces| && lo <= hi
    ensures Inv(Unmap(k, p, lo, hi))
  {
    var j := Unmap(k, p, lo, hi);
    UnmapValid(k, p, lo, hi);
    UnmapNarrows(k, p, lo, hi);
    NarrowedKeeps(k, j);
    NarrowedTops(k, j);
    forall q: nat, v: nat | q < |j.spaces| && v in j.spaces[q].ptes
      ensures PteOk(j.heap, AtPage(j, q, v), j.spaces[q].ptes[v])
    {
      UnmapAt(k, p, lo, hi, q, v);
      PteSurvives(k, j, q, v);
    }
  }

  // ----- exit -----

  lemma ExitValid(k: State, p: nat)
    requires Inv(k) && p < |k.spaces|
    ensures Valid(Exit(k, p).heap, Refs(Exit(k, p)))
    ensures Shrunk(k.heap, Exit(k, p).heap)
  {
    RefsSplit(k, p);
    PutAllKeeps(k.heap, k.spaces[p].areas, OtherRefs(k, p));
    RefsOfUpdate(k, p, Exit(k, p).heap, EMPTY_SPACE);
    assert Refs(Exit(k, p)) == OtherRefs(k, p);
  }

  lemma ExitInv(k: State, p: nat)
    requires Inv(k) && p < |k.spaces|
    ensures Inv(Exit(k, p))
  {
    var j := Exit(k, p);
    ExitValid(k, p);
    forall q: nat, b: Area | HasArea(j, q, b)
      ensures exists a: Area :: HasArea(k, q, a) && Like(a, b)
    {
      assert HasArea(k, q, b) && Like(b, b);
    }
    NarrowedKeeps(k, j);
    NarrowedTops(k, j);
    forall q: nat, v: nat | q < |j.spaces| && v in j.spaces[q].ptes
      ensures PteOk(j.heap, AtPage(j, q, v), j.spaces[q].ptes[v])
    {
      PteSurvives(k, j, q, v);
    }
  }
}
