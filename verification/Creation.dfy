/** New mappings and new processes: mmap and fork. */
module Creation {
  import opened Wrappers
  import opened Areas
  import opened Objects
  import opened Overlay
  import opened Kernel
  import opened Holders
  import opened Removal

  // ----- New objects -----

  /** g is h with objects added at the end and with counts changed. */
  ghost predicate Extends(h: Heap, g: Heap) {
    && |h| <= |g|
    && forall o: nat | o < |h| :: Live(g, o) == Live(h, o) &&
                                  (Live(h, o) ==> g[o].pages == h[o].pages && g[o].kind == h[o].kind)
  }

  /** Old objects show what they showed. */
  lemma {:induction false} ExtendsShows(h: Heap, g: Heap, o: nat, n: nat)
    requires Extends(h, g) && Linked(h) && Live(h, o)
    ensures Source(g, o, n) == Source(h, o, n) && Live(h, Source(h, o, n))
    ensures Held(g, Source(g, o, n), n) == Held(h, Source(h, o, n), n)
    ensures IsShadow(g, Source(g, o, n)) == IsShadow(h, Source(h, o, n))
    decreases o
  {
    if IsShadow(h, o) && n !in h[o].pages {
      assert LinkOk(h, o, h[o].kind.shadowed, h[o].kind.bottom);
      ExtendsShows(h, g, h[o].kind.shadowed, n);
    }
  }

  lemma PointersAppend(h: Heap, x: Obj, o: nat)
    ensures Pointers(h + [x], o) == Pointers(h, o) + Holds(x, o)
  {
    assert (h + [x])[..|h|] == h;
  }

  /** anon_create */
  lemma AppendAnon(h: Heap, m: multiset<nat>)
    requires Valid(h, m)
    ensures Valid(h + [Obj(1, map[], Anon)], m + multiset{|h|})
  {
    var x := Obj(1, map[], Anon);
    var g := h + [x];
    forall o: nat
      ensures ExactAt(g, m + multiset{|h|}, o)
    {
      assert ExactAt(h, m, o);
      PointersAppend(h, x, o);
    }
    forall o: nat | IsShadow(g, o)
      ensures LinkOk(g, o, g[o].kind.shadowed, g[o].kind.bottom)
    {
      assert LinkOk(h, o, h[o].kind.shadowed, h[o].kind.bottom);
    }
  }

  /** shadow_create: references on the shadowed object and on its bottom pass to the new shadow. */
  lemma AppendShadow(h: Heap, s: nat, b: nat, m: multiset<nat>)
    requires Valid(h, m + multiset{s} + multiset{b}) && b == BottomOf(h, s)
    ensures Valid(h + [Obj(1, map[], Shadow(s, b))], m + multiset{|h|})
  {
    var x := Obj(1, map[], Shadow(s, b));
    var g := h + [x];
    var r := m + multiset{s} + multiset{b};
    assert ExactAt(h, r, s) && ExactAt(h, r, b);
    forall o: nat
      ensures ExactAt(g, m + multiset{|h|}, o)
    {
      assert ExactAt(h, r, o);
      PointersAppend(h, x, o);
    }
    forall o: nat | IsShadow(g, o)
      ensures LinkOk(g, o, g[o].kind.shadowed, g[o].kind.bottom)
    {
      if o < |h| {
        assert LinkOk(h, o, h[o].kind.shadowed, h[o].kind.bottom);
      } else if IsShadow(h, s) {
        assert LinkOk(h, s, h[s].kind.shadowed, h[s].kind.bottom);
      }
    }
  }

  lemma RefExtends(h: Heap, o: nat)
    ensures Extends(h, Ref(h, o)) && |Ref(h, o)| == |h|
    ensures BottomOf(Ref(h, o), o) == BottomOf(h, o)
  {
  }

  // ----- mmap -----

  lemma MakeBottomKeeps(h: Heap, file: Option<nat>, m: multiset<nat>)
    requires Valid(h, m) && (file.Some? ==> IsFile(h, file.value))
    ensures Valid(MakeBottom(h, file).heap, m + multiset{MakeBottom(h, file).obj})
    ensures Extends(h, MakeBottom(h, file).heap)
    ensures var b := MakeBottom(h, file); Live(b.heap, b.obj) && !IsShadow(b.heap, b.obj)
    ensures MakeBottom(h, file).obj >= |h| || IsFile(h, MakeBottom(h, file).obj)
  {
    if file.None? { AppendAnon(h, m); } else { RefKeeps(h, file.value, m); }
  }

  lemma MakeObjKeeps(h: Heap, r: Request, m: multiset<nat>)
    requires Valid(h, m) && (r.file.Some? ==> IsFile(h, r.file.value))
    ensures Valid(MakeObj(h, r).heap, m + multiset{MakeObj(h, r).obj})
    ensures Extends(h, MakeObj(h, r).heap)
  {
    var b := MakeBottom(h, r.file);
    MakeBottomKeeps(h, r.file, m);
    if !r.shared {
      RefKeeps(b.heap, b.obj, m + multiset{b.obj});
      RefExtends(b.heap, b.obj);
      AppendShadow(Ref(b.heap, b.obj), b.obj, b.obj, m);
    }
  }

  /** The new object is a new top, or a bottom object; in neither case the top of another area,
      and the new shadow lies over a bottom object. */
  lemma MakeObjFresh(h: Heap, r: Request, m: multiset<nat>)
    requires Valid(h, m) && (r.file.Some? ==> IsFile(h, r.file.value))
    ensures var n := MakeObj(h, r); Live(n.heap, n.obj) && r.shared == !IsShadow(n.heap, n.obj)
    ensures !IsShadow(h, MakeObj(h, r).obj)
    ensures forall x: nat | IsShadow(MakeObj(h, r).heap, x) ::
              MakeObj(h, r).heap[x].kind.shadowed != MakeObj(h, r).obj || r.shared
    ensures forall x: nat | x >= |h| && IsShadow(MakeObj(h, r).heap, x) ::
            !IsShadow(h, MakeObj(h, r).heap[x].kind.shadowed)
  {
    MakeBottomKeeps(h, r.file, m);
    MakeObjKeeps(h, r, m);
    var n := MakeObj(h, r);
    forall x: nat | IsShadow(n.heap, x)
      ensures n.heap[x].kind.shadowed != n.obj || r.shared
    {
      assert LinkOk(n.heap, x, n.heap[x].kind.shadowed, n.heap[x].kind.bottom);
    }
  }

  predicate Room(k: State, p: nat, l: nat, r: Request) {
    && p < |k.spaces| && 0 < r.n && USER_LOW <= l && l + r.n <= USER_HIGH
    && RangeEmpty(k.spaces[p].areas, l, l + r.n)
    && (r.file.Some? ==> IsFile(k.heap, r.file.value))
  }

  function NewArea(k: State, l: nat, r: Request): Area {
    Area(l, l + r.n, r.off, r.prot, r.shared, MakeObj(k.heap, r).obj)
  }

  lemma InsertRefs(s: seq<Area>, a: Area)
    ensures ObjsOf(Insert(s, a)) == ObjsOf(s) + multiset{a.obj}
  {
    var l, r := s[..InsertPos(s, a)], s[InsertPos(s, a)..];
    assert s == l + r;
    calc {
      ObjsOf(Insert(s, a));
      { ObjsOfAppend(l + [a], r); }
      ObjsOf(l + [a]) + ObjsOf(r);
      { ObjsOfAppend(l, [a]); ObjsOfOne(a); }
      ObjsOf(l) + multiset{a.obj} + ObjsOf(r);
      ObjsOf(l) + ObjsOf(r) + multiset{a.obj};
      { ObjsOfAppend(l, r); }
      ObjsOf(s) + multiset{a.obj};
    }
  }

  lemma InsertHas(s: seq<Area>, a: Area, b: Area)
    ensures b in Insert(s, a) <==> b in s || b == a
  {
    var i := InsertPos(s, a);
    assert s == s[..i] + s[i..];
  }

  lemma InsertIntoGap(s: seq<Area>, a: Area, v: nat)
    requires Sorted(s) && ValidArea(a) && RangeEmpty(s, a.start, a.end)
    ensures Sorted(Insert(s, a))
    ensures At(Insert(s, a), v) == if Covers(a, v) then Some(MappingOf(a, v)) else At(s, v)
    ensures StartOf(Insert(s, a), v) == if Covers(a, v) then Some(a.start) else StartOf(s, v)
  {
    EmptyMeansDisjoint(s, a);
    InsertSorted(s, a);
    InsertDenotes(s, a, v);
  }

  lemma AttachAreas(k: State, p: nat, l: nat, r: Request)
    requires AllSorted(k) && Room(k, p, l, r)
    ensures AllSorted(Attach(k, p, l, r))
    ensures Refs(Attach(k, p, l, r)) == Refs(k) + multiset{NewArea(k, l, r).obj}
  {
    hide Insert, MakeObj, RangeEmpty, ObjsOf;
    var s, a := k.spaces[p].areas, NewArea(k, l, r);
    var j := Attach(k, p, l, r);
    InsertIntoGap(s, a, 0);
    InsertRefs(s, a);
    RefsSplit(k, p);
    RefsOfUpdate(k, p, j.heap, j.spaces[p]);
  }

  lemma AttachHas(k: State, p: nat, l: nat, r: Request, q: nat, b: Area)
    requires p < |k.spaces|
    ensures HasArea(Attach(k, p, l, r), q, b) <==> HasArea(k, q, b) || (q == p && b == NewArea(k, l, r))
  {
    InsertHas(k.spaces[p].areas, NewArea(k, l, r), b);
  }

  /** mmap only adds pages [l, l + n) to the map of p. */
  lemma AttachAt(k: State, p: nat, l: nat, r: Request, q: nat, v: nat)
    requires AllSorted(k) && Room(k, p, l, r)
    ensures AtPage(Attach(k, p, l, r), q, v) ==
            if q == p && l <= v < l + r.n then Some(MappingOf(NewArea(k, l, r), v)) else AtPage(k, q, v)
    ensures StartAt(Attach(k, p, l, r), q, v) == if q == p && l <= v < l + r.n then Some(l) else StartAt(k, q, v)
  {
    var a := NewArea(k, l, r);
    assert Attach(k, p, l, r).spaces[p].areas == Insert(k.spaces[p].areas, a);
    if q == p {
      InsertIntoGap(k.spaces[p].areas, a, v);
    }
  }

  lemma AttachTops(k: State, p: nat, l: nat, r: Request)
    requires Inv(k) && Room(k, p, l, r)
    ensures KindsOk(Attach(k, p, l, r)) && TopsOwned(Attach(k, p, l, r)) && TopsUnshadowed(Attach(k, p, l, r))
  {
    var j, a := Attach(k, p, l, r), NewArea(k, l, r);
    forall q: nat, b: Area
      ensures HasArea(j, q, b) <==> HasArea(k, q, b) || (q == p && b == a)
    {
      AttachHas(k, p, l, r, q, b);
    }
    MakeObjKeeps(k.heap, r, Refs(k));
    MakeObjFresh(k.heap, r, Refs(k));
    forall q: nat, b: Area | HasArea(j, q, b) && !b.shared
      ensures Unshadowed(j.heap, b.obj)
    {
      if HasArea(k, q, b) {
        assert Unshadowed(k.heap, b.obj) && IsShadow(k.heap, b.obj);
      }
    }
  }

  lemma AttachFiles(k: State, p: nat, l: nat, r: Request)
    requires Inv(k) && Room(k, p, l, r)
    ensures FilesOk(Attach(k, p, l, r))
  {
    var j := Attach(k, p, l, r);
    MakeObjKeeps(k.heap, r, Refs(k));
    forall o: nat | Live(j.heap, o)
      ensures IsFile(j.heap, o) == (o in j.files)
    {
      assert ExactAt(k.heap, Refs(k), o);
    }
  }

  lemma AttachInv(k: State, p: nat, l: nat, r: Request)
    requires Inv(k) && Room(k, p, l, r)
    ensures Inv(Attach(k, p, l, r))
  {
    var j := Attach(k, p, l, r);
    MakeObjKeeps(k.heap, r, Refs(k));
    AttachAreas(k, p, l, r);
    AttachTops(k, p, l, r);
    AttachFiles(k, p, l, r);
    forall q: nat, v: nat | q < |j.spaces| && v in j.spaces[q].ptes
      ensures PteOk(j.heap, AtPage(j, q, v), j.spaces[q].ptes[v])
    {
      AttachAt(k, p, l, r, q, v);
      assert PteOk(k.heap, AtPage(k, q, v), k.spaces[q].ptes[v]);
    }
  }

  lemma ClearedAt(k: State, p: nat, r: Request, l: nat, q: nat, v: nat)
    requires p < |k.spaces| && Sorted(k.spaces[p].areas)
    requires !(q == p && l <= v < l + r.n) || r.lo == 0
    ensures AtPage(Cleared(k, p, l, r), q, v) == AtPage(k, q, v)
  {
    UnmapAt(k, p, l, l + r.n, q, v);
  }

  lemma SortedOf(k: State, p: nat)
    requires Inv(k) && p < |k.spaces|
    ensures Sorted(k.spaces[p].areas)
  {
  }

  lemma ClearRoom(k: State, p: nat, r: Request)
    requires MapOk(k, p, r) && r.lo != 0 && RangeEmpty(k.spaces[p].areas, r.lo, r.lo + r.n)
    ensures Room(k, p, r.lo, r)
  {
  }

  /** A range that was removed is free. */
  lemma UnmappedRoom(k: State, p: nat, r: Request)
    requires Inv(k) && MapOk(k, p, r) && r.lo != 0
    ensures Room(Unmap(k, p, r.lo, r.lo + r.n), p, r.lo, r)
  {
    hide Inv, CutAll, CutHeap, RangeEmpty;
    assert Sorted(k.spaces[p].areas) by { SortedOf(k, p); }
    CutAllEmpties(k.spaces[p].areas, r.lo, r.lo + r.n);
    if r.file.Some? {
      UnmapKeepsFile(k, p, r.lo, r.lo + r.n, r.file.value);
    }
  }

  lemma UnmapKeepsFile(k: State, p: nat, lo: nat, hi: nat, f: nat)
    requires Inv(k) && p < |k.spaces| && lo <= hi && IsFile(k.heap, f)
    ensures IsFile(Unmap(k, p, lo, hi).heap, f)
  {
    var j := Unmap(k, p, lo, hi);
    UnmapValid(k, p, lo, hi);
    assert ExactAt(j.heap, Refs(j), f);
  }

  lemma FoundRoom(k: State, p: nat, r: Request)
    requires Inv(k) && MapOk(k, p, r) && r.lo == 0 && Target(k, p, r).Some?
    ensures Room(k, p, Target(k, p, r).value, r)
  {
    FindBelowIsHighest(k.spaces[p].areas, USER_HIGH, r.n);
    assert Fits(k.spaces[p].areas, USER_HIGH, r.n, Target(k, p, r).value);
  }

  /** Where a mapping goes there is room once the range is cleared. */
  lemma ClearedRoom(k: State, p: nat, r: Request)
    requires Inv(k) && MapOk(k, p, r) && Target(k, p, r).Some?
    ensures Inv(Cleared(k, p, Target(k, p, r).value, r))
    ensures Room(Cleared(k, p, Target(k, p, r).value, r), p, Target(k, p, r).value, r)
  {
    hide Inv, Room, Unmap, RangeEmpty, FindRange;
    if r.lo == 0 {
      FoundRoom(k, p, r);
    } else if RangeEmpty(k.spaces[p].areas, r.lo, r.lo + r.n) {
      ClearRoom(k, p, r);
    } else {
      UnmapInv(k, p, r.lo, r.lo + r.n);
      UnmappedRoom(k, p, r);
    }
  }

  lemma MmapInv(k: State, p: nat, r: Request)
    requires Inv(k) && MapOk(k, p, r)
    ensures Inv(Mmap(k, p, r))
  {
    if Target(k, p, r).Some? {
      ClearedRoom(k, p, r);
      AttachInv(Cleared(k, p, Target(k, p, r).value, r), p, Target(k, p, r).value, r);
    }
  }

  /** With an address, mmap overrides exactly the requested range; without one it only extends the map. */
  lemma MmapAt(k: State, p: nat, r: Request, l: nat, q: nat, v: nat)
    requires Inv(k) && MapOk(k, p, r) && Target(k, p, r) == Some(l)
    ensures q == p && l <= v < l + r.n ==>
              AtPage(Mmap(k, p, r), q, v) == Some(MappingOf(NewArea(Cleared(k, p, l, r), l, r), v))
    ensures !(q == p && l <= v < l + r.n) ==> AtPage(Mmap(k, p, r), q, v) == AtPage(k, q, v)
    ensures r.lo == 0 && AtPage(k, q, v).Some? ==> AtPage(Mmap(k, p, r), q, v) == AtPage(k, q, v)
  {
    ClearedRoom(k, p, r);
    AttachAt(Cleared(k, p, l, r), p, l, r, q, v);
    if r.lo == 0 {
      var s := k.spaces[p].areas;
      assert RangeEmpty(s, l, l + r.n);
      assert l <= v < l + r.n ==> At(s, v).None?;
    } else if !(q == p && l <= v < l + r.n) {
      ClearedAt(k, p, r, l, q, v);
    }
  }

  /** A search for room fails exactly when no range of that size is free in user memory, and
      otherwise yields the highest one. */
  lemma MmapPlace(k: State, p: nat, r: Request, b: nat)
    requires Inv(k) && MapOk(k, p, r) && r.lo == 0
    ensures Target(k, p, r).None? ==> Mmap(k, p, r) == k && !Fits(k.spaces[p].areas, USER_HIGH, r.n, b)
    ensures Target(k, p, r).Some? ==>
              && Fits(k.spaces[p].areas, USER_HIGH, r.n, Target(k, p, r).value)
              && (Fits(k.spaces[p].areas, USER_HIGH, r.n, b) ==> b <= Target(k, p, r).value)
  {
    FindBelowIsHighest(k.spaces[p].areas, USER_HIGH, r.n);
  }
}
