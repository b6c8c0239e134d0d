/** Page faults, reads, writes and the break. */
module Access {
  import opened Wrappers
  import opened Areas
  import opened Objects
  import opened Overlay
  import opened Kernel
  import opened Holders
  import opened Removal
  import opened Creation

  /** g is h with pages changed or added. */
  ghost predicate Repaged(h: Heap, g: Heap) {
    && |g| == |h|
    && forall o: nat | Live(h, o) :: Live(g, o) && g[o].kind == h[o].kind && h[o].pages.Keys <= g[o].pages.Keys
  }

  ghost predicate NoneBack(h: Heap, g: Heap) {
    forall o: nat | Live(g, o) :: Live(h, o)
  }

  lemma FillRepages(h: Heap, b: nat, n: nat)
    ensures Repaged(h, Fill(h, b, n)) && NoneBack(h, Fill(h, b, n))
  {
  }

  lemma LookupReadRepages(h: Heap, o: nat, n: nat)
    ensures Repaged(h, LookupRead(h, o, n).heap) && NoneBack(h, LookupRead(h, o, n).heap)
  {
    FillRepages(h, Source(h, o, n), n);
  }

  lemma LookupWriteRepages(h: Heap, o: nat, n: nat)
    ensures Repaged(h, LookupWrite(h, o, n).heap) && NoneBack(h, LookupWrite(h, o, n).heap)
  {
    FillRepages(h, Source(h, o, n), n);
    FillRepages(h, o, n);
  }

  lemma RepagedInv(k: State, g: Heap)
    requires Inv(k) && Repaged(k.heap, g) && NoneBack(k.heap, g) && Valid(g, Refs(k))
    ensures Inv(State(g, k.spaces, k.files))
  {
    var j := State(g, k.spaces, k.files);
    assert forall q: nat, b: Area :: HasArea(j, q, b) == HasArea(k, q, b);
    forall q: nat, v: nat | q < |j.spaces| && v in j.spaces[q].ptes
      ensures PteOk(j.heap, AtPage(j, q, v), j.spaces[q].ptes[v])
    {
      assert PteOk(k.heap, AtPage(k, q, v), k.spaces[q].ptes[v]);
    }
    RepagedTops(k, g);
  }

  lemma RepagedTops(k: State, g: Heap)
    requires Inv(k) && Repaged(k.heap, g) && NoneBack(k.heap, g)
    ensures var j := State(g, k.spaces, k.files);
            KindsOk(j) && FilesOk(j) && TopsUnshadowed(j) && TopsOwned(j)
  {
    var j := State(g, k.spaces, k.files);
    forall q: nat, b: Area | HasArea(j, q, b)
      ensures Live(j.heap, b.obj) && b.shared == !IsShadow(j.heap, b.obj)
      ensures !b.shared ==> Unshadowed(j.heap, b.obj)
    {
      assert HasArea(k, q, b);
      if !b.shared {
        assert Unshadowed(k.heap, b.obj);
      }
    }
    assert forall q: nat, b: Area | HasArea(j, q, b) :: HasArea(k, q, b);
  }

  /** Installing an entry that satisfies the entry invariant keeps the state invariant. */
  lemma SetPteInv(k: State, p: nat, v: nat, e: Pte)
    requires Inv(k) && p < |k.spaces| && PteOk(k.heap, AtPage(k, p, v), e)
    ensures Inv(SetPtes(k, p, k.spaces[p].ptes[v := e], k.heap))
  {
    var j := SetPtes(k, p, k.spaces[p].ptes[v := e], k.heap);
    RefsSplit(k, p);
    RefsOfUpdate(k, p, k.heap, j.spaces[p]);
    forall q: nat, b: Area | HasArea(j, q, b)
      ensures exists a: Area :: HasArea(k, q, a) && Like(a, b)
    {
      assert HasArea(k, q, b) && Like(b, b);
    }
    NarrowedKeeps(k, j);
    NarrowedTops(k, j);
    forall q: nat, w: nat | q < |j.spaces| && w in j.spaces[q].ptes
      ensures PteOk(j.heap, AtPage(j, q, w), j.spaces[q].ptes[w])
    {
      if !(q == p && w == v) {
        assert PteOk(k.heap, AtPage(k, q, w), k.spaces[q].ptes[w]);
      }
    }
  }

  lemma MappedLive(k: State, p: nat, v: nat)
    requires Inv(k) && AtPage(k, p, v).Some?
    ensures Live(k.heap, AtPage(k, p, v).value.obj)
    ensures AtPage(k, p, v).value.shared == !IsShadow(k.heap, AtPage(k, p, v).value.obj)
  {
    var i := Find(k.spaces[p].areas, v).value;
    assert HasArea(k, p, k.spaces[p].areas[i]);
  }

  lemma KernelReadInv(k: State, p: nat, v: nat)
    requires Inv(k)
    ensures Inv(KernelRead(k, p, v))
  {
    if AtPage(k, p, v).Some? {
      var m := AtPage(k, p, v).value;
      MappedLive(k, p, v);
      LookupReadKeeps(k.heap, m.obj, m.page, Refs(k));
      LookupReadRepages(k.heap, m.obj, m.page);
      RepagedInv(k, LookupRead(k.heap, m.obj, m.page).heap);
    }
  }

  /** The state after the lookup a write begins with. */
  lemma TouchInv(k: State, p: nat, v: nat)
    requires Inv(k) && AtPage(k, p, v).Some?
    ensures var m := AtPage(k, p, v).value;
            Inv(State(LookupWrite(k.heap, m.obj, m.page).heap, k.spaces, k.files))
  {
    var m := AtPage(k, p, v).value;
    MappedLive(k, p, v);
    LookupWriteKeeps(k.heap, m.obj, m.page, Refs(k));
    LookupWriteRepages(k.heap, m.obj, m.page);
    RepagedInv(k, LookupWrite(k.heap, m.obj, m.page).heap);
  }

  lemma StoreInv(k: State, o: nat, n: nat, c: Page)
    requires Inv(k) && Live(k.heap, o) && n in k.heap[o].pages
    ensures Inv(State(StorePage(k.heap, o, n, c), k.spaces, k.files))
  {
    StorePageValid(k.heap, o, n, c, Refs(k));
    RepagedInv(k, StorePage(k.heap, o, n, c));
  }

  lemma KernelWriteInv(k: State, p: nat, v: nat, at: nat, bytes: seq<Byte>)
    requires Inv(k) && at + |bytes| <= PAGE_SIZE
    ensures Inv(KernelWrite(k, p, v, at, bytes))
  {
    if AtPage(k, p, v).Some? {
      var m := AtPage(k, p, v).value;
      var f := LookupWrite(k.heap, m.obj, m.page);
      TouchInv(k, p, v);
      if f.frame.Some? && Live(f.heap, m.obj) && m.page in f.heap[m.obj].pages {
        StoreInv(State(f.heap, k.spaces, k.files), m.obj, m.page, Splice(f.heap[m.obj].pages[m.page], at, bytes));
      }
    }
  }

  lemma UserStoreInv(k: State, p: nat, v: nat, at: nat, bytes: seq<Byte>)
    requires Inv(k) && at + |bytes| <= PAGE_SIZE
    ensures Inv(UserStore(k, p, v, at, bytes))
  {
    if CanStore(k, p, v) {
      var e := k.spaces[p].ptes[v];
      StoreInv(k, e.obj, e.page, Splice(k.heap[e.obj].pages[e.page], at, bytes));
    }
  }

  lemma FaultInv(k: State, p: nat, v: nat, write: bool, exec: bool)
    requires Inv(k) && p < |k.spaces|
    ensures Inv(Fault(k, p, v, write, exec))
  {
    ExitInv(k, p);
    if AtPage(k, p, v).Some? && !Denied(AtPage(k, p, v).value.prot, write, exec) {
      var m := AtPage(k, p, v).value;
      MappedLive(k, p, v);
      LookupWriteKeeps(k.heap, m.obj, m.page, Refs(k));
      LookupReadKeeps(k.heap, m.obj, m.page, Refs(k));
      var f := if write then LookupWrite(k.heap, m.obj, m.page) else LookupRead(k.heap, m.obj, m.page);
      var j := State(f.heap, k.spaces, k.files);
      if write { TouchInv(k, p, v); } else { KernelReadInv(k, p, v); }
      if f.frame.Some? {
        SetPteInv(j, p, v, Pte(f.frame.value, m.page, write));
      }
    }
  }

  // ----- brk -----

  lemma ObjsOfReplace(s: seq<Area>, i: nat, a: Area)
    requires i < |s| && a.obj == s[i].obj
    ensures ObjsOf(s[i := a]) == ObjsOf(s)
  {
    var l, r := s[..i], s[i + 1..];
    assert s == l + [s[i]] + r && s[i := a] == l + [a] + r;
    ObjsOfAppend(l + [s[i]], r);
    ObjsOfAppend(l, [s[i]]);
    ObjsOfAppend(l + [a], r);
    ObjsOfAppend(l, [a]);
    ObjsOfOne(a);
    ObjsOfOne(s[i]);
  }

  /** Extending an area over free pages keeps the list sorted and adds exactly those pages. */
  lemma GrowAreas(s: seq<Area>, i: nat, end: nat, v: nat)
    requires Sorted(s) && i < |s| && s[i].end <= end <= USER_HIGH && RangeEmpty(s, s[i].end, end)
    ensures Sorted(s[i := s[i].(end := end)])
    ensures At(s[i := s[i].(end := end)], v) ==
            if s[i].end <= v < end then Some(MappingOf(s[i], v)) else At(s, v)
    ensures StartOf(s[i := s[i].(end := end)], v) == if s[i].end <= v < end then Some(s[i].start) else StartOf(s, v)
  {
    var a := s[i].(end := end);
    var t := s[i := a];
    GrowSorted(s, i, end);
    if s[i].end <= v < end {
      AtIs(t, i, v);
    } else {
      match Find(s, v)
      case None => assert forall j | 0 <= j < |t| :: !Covers(t[j], v);
      case Some(j) => AtIs(t, j, v);
    }
  }

  lemma GrowSorted(s: seq<Area>, i: nat, end: nat)
    requires Sorted(s) && i < |s| && s[i].end <= end <= USER_HIGH && RangeEmpty(s, s[i].end, end)
    ensures Sorted(s[i := s[i].(end := end)])
  {
    forall j | i < j < |s|
      ensures end <= s[j].start
    {
      if s[j].start < end {
        assert At(s, s[j].start).None?;
        assert Covers(s[j], s[j].start);
        assert false;
      }
    }
  }

  lemma GrowInv(k: State, p: nat, i: nat, end: nat)
    requires Inv(k) && p < |k.spaces| && i < |k.spaces[p].areas|
    requires k.spaces[p].areas[i].end <= end <= USER_HIGH
    requires RangeEmpty(k.spaces[p].areas, k.spaces[p].areas[i].end, end)
    ensures Inv(Grow(k, p, i, end))
  {
    var s := k.spaces[p].areas;
    var a := s[i].(end := end);
    var j := Grow(k, p, i, end);
    GrowSorted(s, i, end);
    RefsSplit(k, p);
    RefsOfUpdate(k, p, k.heap, j.spaces[p]);
    ObjsOfReplace(s, i, a);
    forall q: nat, b: Area | HasArea(j, q, b)
      ensures exists c: Area :: HasArea(k, q, c) && Like(c, b)
    {
      if q == p && b == a {
        assert HasArea(k, q, s[i]) && Like(s[i], b);
      } else {
        assert HasArea(k, q, b) && Like(b, b);
      }
    }
    NarrowedKeeps(k, j);
    NarrowedTops(k, j);
    forall q: nat, v: nat | q < |j.spaces| && v in j.spaces[q].ptes
      ensures PteOk(j.heap, AtPage(j, q, v), j.spaces[q].ptes[v])
    {
      GrowAreas(s, i, end, v);
      assert PteOk(k.heap, AtPage(k, q, v), k.spaces[q].ptes[v]);
    }
  }

  lemma SetBreaksInv(k: State, p: nat, start: nat, addr: nat)
    requires Inv(k) && p < |k.spaces|
    ensures Inv(SetBreaks(k, p, start, addr))
  {
    var j := SetBreaks(k, p, start, addr);
    RefsSplit(k, p);
    RefsOfUpdate(k, p, k.heap, j.spaces[p]);
    forall q: nat, b: Area | HasArea(j, q, b)
      ensures exists a: Area :: HasArea(k, q, a) && Like(a, b)
    {
      assert HasArea(k, q, b) && Like(b, b);
    }
    NarrowedKeeps(k, j);
    NarrowedTops(k, j);
    forall q: nat, v: nat | q < |j.spaces| && v in j.spaces[q].ptes
      ensures PteOk(j.heap, AtPage(j, q, v), j.spaces[q].ptes[v])
    {
      assert PteOk(k.heap, AtPage(k, q, v), k.spaces[q].ptes[v]);
    }
  }

  lemma BrkInv(k: State, p: nat, addr: nat)
    requires Inv(k) && BrkOk(k, p, addr)
    ensures Brk(k, p, addr).Some? ==> Inv(Brk(k, p, addr).value)
  {
    if addr != 0 && Brk(k, p, addr).Some? {
      var s := k.spaces[p].areas;
      var i := Find(s, k.spaces[p].startBrk / PAGE_SIZE).value;
      var prev, cur := s[i].end, PageUp(addr);
      if prev < cur {
        GrowInv(k, p, i, cur);
        SetBreaksInv(Grow(k, p, i, cur), p, k.spaces[p].startBrk, addr);
      } else if cur < prev {
        UnmapInv(k, p, cur, prev);
        SetBreaksInv(Unmap(k, p, cur, prev), p, k.spaces[p].startBrk, addr);
      } else {
        SetBreaksInv(k, p, k.spaces[p].startBrk, addr);
      }
    }
  }
}
