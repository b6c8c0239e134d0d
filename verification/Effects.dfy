/** What single calls do, told by what their callers can see. */
module Effects {
  import opened Wrappers
  import opened Areas
  import opened Objects
  import opened Overlay
  import opened Kernel
  import opened Flat
  import opened Access
  import opened Removal
  import opened Creation
  import opened Forking
  import opened Breaks
  import opened Representation
  import opened Runs
  import opened Theorems
  import opened Tables
  import opened Regrowth

  // ----- Page faults -----

  /** The process goes on with the areas it had and can load from v what its map shows there. */
  predicate Resumed(k: State, j: State, p: nat, v: nat, write: bool)
    requires p < |k.spaces| && p < |j.spaces| && AtPage(k, p, v).Some?
  {
    var s, t := k.spaces[p], j.spaces[p];
    && t.areas == s.areas && t.startBrk == s.startBrk && t.brk == s.brk
    && v in t.ptes && t.ptes[v].writable == write && t.ptes == s.ptes[v := t.ptes[v]]
    && UserLoad(j, p, v) == View(k, p, v)
    && (write ==> t.ptes[v].obj == AtPage(k, p, v).value.obj)
  }

  lemma ServedResumes(k: State, p: nat, v: nat, write: bool, exec: bool)
    requires Inv(k) && p < |k.spaces| && AtPage(k, p, v).Some? && View(k, p, v).Some?
    requires !Denied(AtPage(k, p, v).value.prot, write, exec)
    ensures var j := Fault(k, p, v, write, exec);
            |j.spaces| == |k.spaces| && Resumed(k, j, p, v, write) && SameView(k.heap, j.heap)
  {
    var m := AtPage(k, p, v).value;
    MappedLive(k, p, v);
    LookupWriteKeeps(k.heap, m.obj, m.page, Refs(k));
    LookupReadKeeps(k.heap, m.obj, m.page, Refs(k));
  }

  lemma EndedShows(k: State, p: nat, q: nat, w: nat)
    requires Inv(k) && p < |k.spaces|
    ensures View(Exit(k, p), q, w) == if q == p then None else View(k, q, w)
  {
    ExitInv(k, p);
    ExitValid(k, p);
    var j := Exit(k, p);
    if q != p && AtPage(k, q, w).Some? {
      assert AtPage(j, q, w) == AtPage(k, q, w);
      MappedLive(j, q, w);
      ShrunkShows(k.heap, j.heap, AtPage(k, q, w).value.obj, AtPage(k, q, w).value.page);
    }
  }

  /** A page fault is served if and only if the page is mapped, can be brought in and has the permission
      for each kind of access asked for, a plain load asking for read. Otherwise the process ends. Either
      way nobody else notices. */
  lemma FaultOutcome(k: State, p: nat, v: nat, write: bool, exec: bool)
    requires Inv(k) && p < |k.spaces|
    ensures var j := Fault(k, p, v, write, exec);
            && |j.spaces| == |k.spaces| && (forall q: nat | q < |k.spaces| && q != p :: j.spaces[q] == k.spaces[q])
            && if AtPage(k, p, v).Some? && View(k, p, v).Some? &&
                  (write ==> AtPage(k, p, v).value.prot.write) && (exec ==> AtPage(k, p, v).value.prot.exec) &&
                  (!write && !exec ==> AtPage(k, p, v).value.prot.read)
               then Resumed(k, j, p, v, write) && forall q: nat, w: nat :: View(j, q, w) == View(k, q, w)
               else j.spaces[p].areas == [] && j.spaces[p].ptes == map[] &&
                    forall q: nat, w: nat :: View(j, q, w) == if q == p then None else View(k, q, w)
  {
    var j := Fault(k, p, v, write, exec);
    if AtPage(k, p, v).Some? && View(k, p, v).Some? && !Denied(AtPage(k, p, v).value.prot, write, exec) {
      ServedResumes(k, p, v, write, exec);
      hide Inv;
      forall q: nat, w: nat
        ensures View(j, q, w) == View(k, q, w)
      {
        assert AtPage(j, q, w) == AtPage(k, q, w);
      }
    } else {
      UnservedEnds(k, p, v, write, exec);
      hide Fault, Inv;
      forall q: nat, w: nat
        ensures View(j, q, w) == if q == p then None else View(k, q, w)
      {
        EndedShows(k, p, q, w);
      }
    }
  }

  lemma UnservedEnds(k: State, p: nat, v: nat, write: bool, exec: bool)
    requires Inv(k) && p < |k.spaces|
    requires AtPage(k, p, v).None? || View(k, p, v).None? || Denied(AtPage(k, p, v).value.prot, write, exec)
    ensures Fault(k, p, v, write, exec) == Exit(k, p)
  {
    if AtPage(k, p, v).Some? {
      var m := AtPage(k, p, v).value;
      MappedLive(k, p, v);
      LookupWriteKeeps(k.heap, m.obj, m.page, Refs(k));
      LookupReadKeeps(k.heap, m.obj, m.page, Refs(k));
    }
  }

  /** The same of every reachable state. */
  lemma FaultServed(stores: seq<map<nat, Page>>, ops: seq<Op>, p: nat, v: nat, write: bool, exec: bool)
    requires p < |Reached(stores, ops).spaces|
    ensures var k := Reached(stores, ops);
            var j := Fault(k, p, v, write, exec);
            && |j.spaces| == |k.spaces|
            && if AtPage(k, p, v).Some? && View(k, p, v).Some? &&
                  (write ==> AtPage(k, p, v).value.prot.write) && (exec ==> AtPage(k, p, v).value.prot.exec) &&
                  (!write && !exec ==> AtPage(k, p, v).value.prot.read)
               then Resumed(k, j, p, v, write) && forall q: nat, w: nat :: View(j, q, w) == View(k, q, w)
               else j.spaces[p].areas == [] && j.spaces[p].ptes == map[] &&
                    forall q: nat, w: nat :: View(j, q, w) == if q == p then None else View(k, q, w)
  {
    RunInv(stores, ops);
    FaultOutcome(Reached(stores, ops), p, v, write, exec);
  }

  // ----- brk -----

  function Entry(k: State, p: nat, v: nat): Option<Pte> {
    if p < |k.spaces| && v in k.spaces[p].ptes then Some(k.spaces[p].ptes[v]) else None
  }

  /** brk succeeds if and only if it only asks for the break, or the address lies between the start of the
      break and the end of user memory and every page between the old end of the heap and it is free. */
  lemma BrkSucceeds(k: State, p: nat, addr: nat)
    requires BrkOk(k, p, addr)
    ensures Brk(k, p, addr).Some? <==>
            addr == 0 ||
            (k.spaces[p].startBrk <= addr <= USER_HIGH * PAGE_SIZE && HeapFound(k, p) &&
             forall v: nat | HeapArea(k, p).end <= v && v * PAGE_SIZE < addr :: AtPage(k, p, v) == None)
  {
    if addr != 0 && !BrkRefused(k.spaces[p], addr) {
      var s, end := k.spaces[p].areas, HeapArea(k, p).end;
      if RangeEmpty(s, end, PageUp(addr)) {
        forall v: nat | end <= v && v * PAGE_SIZE < addr
          ensures AtPage(k, p, v) == None
        {
          assert At(s, v).None?;
        }
      } else {
        var v :| end <= v < PageUp(addr) && !At(s, v).None?;
        assert AtPage(k, p, v) != None && v * PAGE_SIZE < addr;
      }
    }
  }

  /** A successful brk maps the pages between the old end of the heap and the new break to the pages that
      follow in the object of the heap, unmaps the pages of the heap behind the break, and changes nothing
      else that anybody has mapped or sees. */
  lemma BrkShows(k: State, p: nat, addr: nat, q: nat, w: nat)
    requires Inv(k) && BrkOk(k, p, addr) && addr != 0 && Brk(k, p, addr).Some?
    ensures HeapFound(k, p)
    ensures var s, t := k.spaces[p], Brk(k, p, addr).value.spaces[p]; t.startBrk == s.startBrk && t.brk == addr
    ensures var a := HeapArea(k, p);
            var j := Brk(k, p, addr).value;
            if q == p && a.end <= w && w * PAGE_SIZE < addr then
              && AtPage(j, q, w) == Some(Mapping(a.obj, w - a.start + a.off, a.prot, a.shared))
              && View(j, q, w) == Content(k.heap, a.obj, w - a.start + a.off)
            else if q == p && a.start <= w < a.end && addr <= w * PAGE_SIZE then
              AtPage(j, q, w) == None && View(j, q, w) == None
            else AtPage(j, q, w) == AtPage(k, q, w) && View(j, q, w) == View(k, q, w)
    ensures var a := HeapArea(k, p);
            Entry(Brk(k, p, addr).value, q, w) ==
            if q == p && a.start <= w < a.end && addr <= w * PAGE_SIZE then None else Entry(k, q, w)
  {
    var a, cur := HeapArea(k, p), PageUp(addr);
    BreakAboveStart(k, p, addr);
    assert w < cur <==> w * PAGE_SIZE < addr;
    SortedOf(k, p);
    if a.end < cur {
      hide Inv;
      GrowAt(k, p, HeapIndex(k, p), cur, q, w);
      SetBrkAt(Grow(k, p, HeapIndex(k, p), cur), p, addr, q, w);
    } else if cur < a.end {
      UnmapShows(k, p, cur, a.end, q, w);
      hide Inv;
      SetBrkAt(Unmap(k, p, cur, a.end), p, addr, q, w);
    } else {
      SetBrkAt(k, p, addr, q, w);
    }
  }

  lemma SetBrkAt(k: State, p: nat, addr: nat, q: nat, w: nat)
    requires p < |k.spaces|
    ensures AtPage(SetBrk(k, p, addr), q, w) == AtPage(k, q, w) && View(SetBrk(k, p, addr), q, w) == View(k, q, w)
    ensures Entry(SetBrk(k, p, addr), q, w) == Entry(k, q, w)
  {
  }

  /** munmap takes the pages of the range, with their entries, from one process and changes nothing else
      that anybody has mapped or sees. */
  lemma UnmapShows(k: State, p: nat, lo: nat, hi: nat, q: nat, w: nat)
    requires Inv(k) && p < |k.spaces| && lo <= hi
    ensures var j := Unmap(k, p, lo, hi);
            if q == p && lo <= w < hi then AtPage(j, q, w) == None
            else AtPage(j, q, w) == AtPage(k, q, w) && View(j, q, w) == View(k, q, w)
    ensures Entry(Unmap(k, p, lo, hi), q, w) == if q == p && lo <= w < hi then None else Entry(k, q, w)
  {
    var j := Unmap(k, p, lo, hi);
    UnmapInv(k, p, lo, hi);
    UnmapValid(k, p, lo, hi);
    SortedOf(k, p);
    UnmapAt(k, p, lo, hi, q, w);
    hide Unmap;
    if AtPage(j, q, w).Some? {
      MappedLive(j, q, w);
      ShrunkShows(k.heap, j.heap, AtPage(j, q, w).value.obj, AtPage(j, q, w).value.page);
    }
  }

  // ----- fork and the break -----

  /** Two lists of areas that are alike but for their objects, which show the same. */
  ghost predicate Alike(h: Heap, g: Heap, s: seq<Area>, t: seq<Area>) {
    |t| == |s| && forall i | 0 <= i < |s| :: AlikeArea(h, g, s[i], t[i])
  }

  ghost predicate AlikeArea(h: Heap, g: Heap, a: Area, b: Area) {
    b == WithObj(a, b.obj) && forall n: nat :: Content(g, b.obj, n) == Content(h, a.obj, n)
  }

  lemma ForkAlike(k: State, p: nat, q: nat)
    requires Inv(k) && p < |k.spaces| && (q == p || q == |k.spaces|)
    ensures Alike(k.heap, Fork(k, p).heap, k.spaces[p].areas, Fork(k, p).spaces[q].areas)
  {
    var j := Fork(k, p);
    var s, t := k.spaces[p].areas, j.spaces[q].areas;
    ForkSides(k, p, q);
    ForkAllShadows(k.heap, s);
    forall i | 0 <= i < |s|
      ensures AlikeArea(k.heap, j.heap, s[i], t[i])
    {
      assert ForkedAs(k.heap, j.heap, s[i], t[i]);
      assert HasArea(k, p, s[i]);
      forall n: nat
        ensures Content(j.heap, t[i].obj, n) == Content(k.heap, s[i].obj, n)
      {
        ExtendsShows(k.heap, j.heap, s[i].obj, n);
      }
    }
  }

  lemma AlikeAt(h: Heap, g: Heap, s: seq<Area>, t: seq<Area>, v: nat)
    requires Alike(h, g, s, t)
    ensures Find(t, v) == Find(s, v)
    ensures match At(s, v)
            case None => At(t, v) == None
            case Some(m) =>
              && At(t, v).Some? && At(t, v).value == Mapping(At(t, v).value.obj, m.page, m.prot, m.shared)
              && Content(g, At(t, v).value.obj, m.page) == Content(h, m.obj, m.page)
  {
    SameBoundsFind(s, t, v);
    if Find(s, v).Some? { assert AlikeArea(h, g, s[Find(s, v).value], t[Find(s, v).value]); }
  }

  /** What process q maps and sees at w is what process p maps and sees there, but for the object's name. */
  predicate SameThere(k: State, p: nat, j: State, q: nat, w: nat) {
    && View(j, q, w) == View(k, p, w)
    && match AtPage(k, p, w)
       case None => AtPage(j, q, w) == None
       case Some(m) =>
         AtPage(j, q, w).Some? && AtPage(j, q, w).value == Mapping(AtPage(j, q, w).value.obj, m.page, m.prot, m.shared)
  }

  /** Right after fork, parent and child have the break the parent had. brk with any address does for either
      of them just what it would have done for the parent before: it may be called on the same addresses,
      succeeds on the same, and leaves the same pages mapped alike and showing the same. */
  lemma ForkBreaks(k: State, p: nat, q: nat, addr: nat)
    requires Inv(k) && p < |k.spaces| && (q == p || q == |k.spaces|)
    ensures var j := Fork(k, p);
            && |j.spaces| == |k.spaces| + 1
            && j.spaces[q].startBrk == k.spaces[p].startBrk && j.spaces[q].brk == k.spaces[p].brk
            && (BrkOk(j, q, addr) <==> BrkOk(k, p, addr))
    ensures BrkOk(k, p, addr) ==> (Brk(Fork(k, p), q, addr).Some? <==> Brk(k, p, addr).Some?)
    ensures BrkOk(k, p, addr) && Brk(k, p, addr).Some? ==>
              forall w: nat :: SameThere(Brk(k, p, addr).value, p, Brk(Fork(k, p), q, addr).value, q, w)
  {
    var j := Fork(k, p);
    ForkAlike(k, p, q);
    ForkInv(k, p);
    assert j.spaces[q].startBrk == k.spaces[p].startBrk && j.spaces[q].brk == k.spaces[p].brk;
    assert |j.spaces| == |k.spaces| + 1;
    hide Fork, Inv;
    AlikeAt(k.heap, j.heap, k.spaces[p].areas, j.spaces[q].areas, k.spaces[p].startBrk / PAGE_SIZE);
    if BrkOk(k, p, addr) {
      AlikeSucceeds(k, p, j, q, addr);
      if Brk(k, p, addr).Some? {
        forall w: nat
          ensures SameThere(Brk(k, p, addr).value, p, Brk(j, q, addr).value, q, w)
        {
          if addr == 0 { AlikeSame(k, p, j, q, w); } else { AlikeBrk(k, p, j, q, addr, w); }
        }
      }
    }
  }

  lemma AlikeSame(k: State, p: nat, j: State, q: nat, w: nat)
    requires p < |k.spaces| && q < |j.spaces| && Alike(k.heap, j.heap, k.spaces[p].areas, j.spaces[q].areas)
    ensures SameThere(k, p, j, q, w)
  {
    AlikeAt(k.heap, j.heap, k.spaces[p].areas, j.spaces[q].areas, w);
  }

  lemma AlikeSucceeds(k: State, p: nat, j: State, q: nat, addr: nat)
    requires BrkOk(k, p, addr) && BrkOk(j, q, addr) && j.spaces[q].startBrk == k.spaces[p].startBrk
    requires Alike(k.heap, j.heap, k.spaces[p].areas, j.spaces[q].areas)
    ensures Brk(j, q, addr).Some? <==> Brk(k, p, addr).Some?
  {
    var s, t := k.spaces[p].areas, j.spaces[q].areas;
    AlikeAt(k.heap, j.heap, s, t, k.spaces[p].startBrk / PAGE_SIZE);
    BrkSucceeds(k, p, addr);
    BrkSucceeds(j, q, addr);
    if HeapFound(k, p) { HeapAlike(k, p, j, q); }
    hide Brk;
    forall v: nat
      ensures AtPage(j, q, v) == None <==> AtPage(k, p, v) == None
    {
      AlikeSame(k, p, j, q, v);
    }
  }

  lemma AlikeBrk(k: State, p: nat, j: State, q: nat, addr: nat, w: nat)
    requires Inv(k) && Inv(j) && BrkOk(k, p, addr) && BrkOk(j, q, addr) && addr != 0
    requires j.spaces[q].startBrk == k.spaces[p].startBrk && Brk(k, p, addr).Some? && Brk(j, q, addr).Some?
    requires Alike(k.heap, j.heap, k.spaces[p].areas, j.spaces[q].areas)
    ensures SameThere(Brk(k, p, addr).value, p, Brk(j, q, addr).value, q, w)
  {
    hide Brk, Inv, Alike, Content, HeapArea, AtPage, View, HeapFound;
    AlikeSame(k, p, j, q, w);
    BrkShows(k, p, addr, p, w);
    BrkShows(j, q, addr, q, w);
    HeapAlike(k, p, j, q);
    assert AlikeArea(k.heap, j.heap, HeapArea(k, p), HeapArea(j, q));
  }

  lemma HeapAlike(k: State, p: nat, j: State, q: nat)
    requires HeapFound(k, p) && q < |j.spaces| && j.spaces[q].startBrk == k.spaces[p].startBrk
    requires Alike(k.heap, j.heap, k.spaces[p].areas, j.spaces[q].areas)
    ensures HeapFound(j, q) && AlikeArea(k.heap, j.heap, HeapArea(k, p), HeapArea(j, q))
  {
    AlikeAt(k.heap, j.heap, k.spaces[p].areas, j.spaces[q].areas, k.spaces[p].startBrk / PAGE_SIZE);
  }

  // ----- mmap -----

  /** A mapping shows the pages of the file from the given one on, or zeros, with the protection and sharing
      asked for. It replaces what the range held, and changes nothing else anybody has mapped or sees. */
  lemma MmapShows(k: State, p: nat, r: Request, l: nat, q: nat, w: nat)
    requires Inv(k) && MapOk(k, p, r) && Target(k, p, r) == Some(l)
    ensures var j := Mmap(k, p, r);
            if q == p && l <= w < l + r.n then
              && AtPage(j, q, w).Some?
              && AtPage(j, q, w).value == Mapping(AtPage(j, q, w).value.obj, w - l + r.off, r.prot, r.shared)
              && View(j, q, w) == if r.file.Some? then Content(k.heap, r.file.value, w - l + r.off)
                                  else Some(ZeroPage())
            else AtPage(j, q, w) == AtPage(k, q, w) && View(j, q, w) == View(k, q, w)
  {
    hide Inv, Room, Cleared, Target, Attach, AtPage, View, Content;
    var c := Cleared(k, p, l, r);
    ClearedRoom(k, p, r);
    MmapAt(k, p, r, l, q, w);
    if !(q == p && l <= w < l + r.n) { ClearedShows(k, p, r, l, q, w); }
    AttachShows(c, p, l, r, q, w);
    if q == p && l <= w < l + r.n && r.file.Some? { FileStays(k, p, r, l, w - l + r.off); }
  }

  /** A page that is not mapped has no entry. */
  lemma NoEntry(k: State, p: nat, v: nat)
    requires Inv(k) && AtPage(k, p, v).None?
    ensures Entry(k, p, v) == None
  {
  }

  /** A mapping takes the entries of its range away and leaves all others. */
  lemma MmapEntries(k: State, p: nat, r: Request, l: nat, q: nat, w: nat)
    requires Inv(k) && MapOk(k, p, r) && Target(k, p, r) == Some(l)
    ensures Entry(Mmap(k, p, r), q, w) == if q == p && l <= w < l + r.n then None else Entry(k, q, w)
  {
    var c := Cleared(k, p, l, r);
    ClearedRoom(k, p, r);
    hide Inv;
    assert Entry(Attach(c, p, l, r), q, w) == Entry(c, q, w);
    if !IsClear(k, p, l, r) {
      UnmapShows(k, p, l, l + r.n, q, w);
    } else if q == p && l <= w < l + r.n {
      assert At(k.spaces[p].areas, w).None?;
      NoEntry(k, p, w);
    }
  }

  lemma AttachShows(c: State, p: nat, l: nat, r: Request, q: nat, w: nat)
    requires Inv(c) && Room(c, p, l, r)
    ensures View(Attach(c, p, l, r), q, w) ==
            if !(q == p && l <= w < l + r.n) then View(c, q, w)
            else if r.file.Some? then Content(c.heap, r.file.value, w - l + r.off)
            else Some(ZeroPage())
  {
    AttachAt(c, p, l, r, q, w);
    if q == p && l <= w < l + r.n {
      NewShows(c.heap, r, w - l + r.off, Refs(c));
    } else if AtPage(c, q, w).Some? {
      MappedLive(c, q, w);
      MakeObjKeeps(c.heap, r, Refs(c));
      ExtendsShows(c.heap, MakeObj(c.heap, r).heap, AtPage(c, q, w).value.obj, AtPage(c, q, w).value.page);
    }
  }

  /** Making room leaves other pages as they are. */
  lemma ClearedShows(k: State, p: nat, r: Request, l: nat, q: nat, w: nat)
    requires Inv(k) && MapOk(k, p, r) && Target(k, p, r) == Some(l) && !(q == p && l <= w < l + r.n)
    ensures AtPage(Cleared(k, p, l, r), q, w) == AtPage(k, q, w)
    ensures View(Cleared(k, p, l, r), q, w) == View(k, q, w)
  {
    hide Inv, Unmap, IsClear, AtPage, View;
    if !IsClear(k, p, l, r) { UnmapShows(k, p, l, l + r.n, q, w); }
  }

  /** Making room leaves files as they are. */
  lemma FileStays(k: State, p: nat, r: Request, l: nat, n: nat)
    requires Inv(k) && MapOk(k, p, r) && Target(k, p, r) == Some(l) && r.file.Some?
    ensures Content(Cleared(k, p, l, r).heap, r.file.value, n) == Content(k.heap, r.file.value, n)
  {
    hide Inv, Unmap, IsClear, Content, Shrunk, Target, Valid;
    ClearedRoom(k, p, r);
    if !IsClear(k, p, l, r) {
      UnmapValid(k, p, l, l + r.n);
      ShrunkFile(k.heap, Unmap(k, p, l, l + r.n).heap, r.file.value, n);
    }
  }

  lemma ShrunkFile(h: Heap, g: Heap, f: nat, n: nat)
    requires Shrunk(h, g) && IsFile(g, f)
    ensures Content(g, f, n) == Content(h, f, n)
  {
  }

  lemma NewShows(h: Heap, r: Request, n: nat, m: multiset<nat>)
    requires Valid(h, m) && (r.file.Some? ==> IsFile(h, r.file.value))
    ensures Content(MakeObj(h, r).heap, MakeObj(h, r).obj, n) ==
            if r.file.Some? then Content(h, r.file.value, n) else Some(ZeroPage())
  {
    var b, o := MakeBottom(h, r.file), MakeObj(h, r);
    assert Live(b.heap, b.obj) && !IsShadow(b.heap, b.obj);
    assert Held(b.heap, b.obj, n) == if r.file.Some? then Held(h, r.file.value, n) else Some(ZeroPage());
    if !r.shared {
      assert IsShadow(o.heap, o.obj) && o.heap[o.obj].kind.shadowed == b.obj && n !in o.heap[o.obj].pages;
      assert Source(o.heap, o.obj, n) == b.obj;
    }
  }
}
