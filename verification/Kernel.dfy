/** The virtual-memory state of the kernel and what every step keeps. */
module Kernel {
  import opened Wrappers
  import opened Areas
  import opened Objects
  import opened Overlay

  /** A page-table entry names a frame: a page of an object. */
  datatype Pte = Pte(obj: nat, page: nat, writable: bool)

  /** The address space of a process. An exited process keeps an empty one. */
  datatype Space = Space(areas: seq<Area>, ptes: map<nat, Pte>, startBrk: nat, brk: nat)

  /** files counts the references the file system itself holds on file objects. */
  datatype State = State(heap: Heap, spaces: seq<Space>, files: multiset<nat>)

  // ----- References held by areas -----

  function ObjsOf(s: seq<Area>): multiset<nat> {
    if s == [] then multiset{} else ObjsOf(s[..|s| - 1]) + multiset{s[|s| - 1].obj}
  }

  function AreaRefs(sp: seq<Space>): multiset<nat> {
    if sp == [] then multiset{} else AreaRefs(sp[..|sp| - 1]) + ObjsOf(sp[|sp| - 1].areas)
  }

  /** Every reference held from outside the object heap. */
  function Refs(k: State): multiset<nat> {
    AreaRefs(k.spaces) + k.files
  }

  const EMPTY_SPACE: Space := Space([], map[], 0, 0)

  /** References held outside the areas of process p. */
  function OtherRefs(k: State, p: nat): multiset<nat>
    requires p < |k.spaces|
  {
    AreaRefs(k.spaces[p := EMPTY_SPACE]) + k.files
  }

  // ----- Lookups -----

  predicate HasArea(k: State, p: nat, a: Area) {
    p < |k.spaces| && a in k.spaces[p].areas
  }

  function AtPage(k: State, p: nat, v: nat): Option<Mapping> {
    if p < |k.spaces| then At(k.spaces[p].areas, v) else None
  }

  function StartAt(k: State, p: nat, v: nat): Option<nat> {
    if p < |k.spaces| then StartOf(k.spaces[p].areas, v) else None
  }

  /** The contents a process sees at a page. */
  function View(k: State, p: nat, v: nat): Option<Page> {
    match AtPage(k, p, v)
    case None => None
    case Some(m) => Content(k.heap, m.obj, m.page)
  }

  // ----- The invariant -----

  /** Two areas that show the same object at the same distance. */
  predicate Like(a: Area, b: Area) {
    a.obj == b.obj && a.shared == b.shared && a.off - a.start == b.off - b.start
  }

  /** Private areas show a shadow object, shared areas a bottom object. */
  ghost predicate KindsOk(k: State) {
    forall p: nat, a: Area | HasArea(k, p, a) :: Live(k.heap, a.obj) && a.shared == !IsShadow(k.heap, a.obj)
  }

  /** The object of a private area is the top of its chain. */
  ghost predicate TopsUnshadowed(k: State) {
    forall p: nat, a: Area | HasArea(k, p, a) && !a.shared :: Unshadowed(k.heap, a.obj)
  }

  /** Only one process shows it, and each of its pages at only one address. */
  ghost predicate TopsOwned(k: State) {
    forall p: nat, a: Area, q: nat, b: Area
      | HasArea(k, p, a) && HasArea(k, q, b) && !a.shared && a.obj == b.obj :: p == q && Like(a, b)
  }

  /** An entry lies in a mapped page; a writable one in a page that may be written, and it names
      the frame resident in the object of the area itself, never one further down the chain. */
  predicate PteOk(h: Heap, m: Option<Mapping>, e: Pte) {
    m.Some? &&
    (e.writable ==> m.value.prot.write && e.obj == m.value.obj && e.page == m.value.page &&
                    Live(h, e.obj) && e.page in h[e.obj].pages)
  }

  ghost predicate PtesOk(k: State) {
    forall p: nat, v: nat | p < |k.spaces| && v in k.spaces[p].ptes ::
      PteOk(k.heap, AtPage(k, p, v), k.spaces[p].ptes[v])
  }

  ghost predicate AllSorted(k: State) {
    forall p: nat | p < |k.spaces| :: Sorted(k.spaces[p].areas)
  }

  /** The file system keeps a reference on every file object, and on nothing else. */
  ghost predicate FilesOk(k: State) {
    forall o: nat | Live(k.heap, o) :: IsFile(k.heap, o) == (o in k.files)
  }

  predicate IsFile(h: Heap, o: nat) {
    Live(h, o) && h[o].kind.File?
  }

  ghost predicate Inv(k: State) {
    && Valid(k.heap, Refs(k))
    && AllSorted(k) && KindsOk(k) && FilesOk(k)
    && TopsUnshadowed(k) && TopsOwned(k)
    && PtesOk(k)
  }

  // ----- munmap: vmmap_remove -----

  /** Effect on the counts of cutting [lo, hi) out of one area. */
  function CutEffect(h: Heap, a: Area, lo: nat, hi: nat): Heap
    requires lo <= hi
  {
    if a.start < lo && hi < a.end then Ref(h, a.obj)
    else if lo <= a.start && a.end <= hi then Put(h, a.obj)
    else h
  }

  function CutHeap(h: Heap, s: seq<Area>, lo: nat, hi: nat): Heap
    requires lo <= hi
  {
    if s == [] then h else CutEffect(CutHeap(h, s[..|s| - 1], lo, hi), s[|s| - 1], lo, hi)
  }

  function Outside(ptes: map<nat, Pte>, lo: nat, hi: nat): map<nat, Pte> {
    map v | v in ptes && !(lo <= v < hi) :: ptes[v]
  }

  function Unmap(k: State, p: nat, lo: nat, hi: nat): State
    requires p < |k.spaces| && lo <= hi
  {
    var s := k.spaces[p];
    State(CutHeap(k.heap, s.areas, lo, hi),
          k.spaces[p := Space(CutAll(s.areas, lo, hi), Outside(s.ptes, lo, hi), s.startBrk, s.brk)],
          k.files)
  }

  // ----- exit: vmmap_destroy -----

  function PutAll(h: Heap, s: seq<Area>): Heap {
    if s == [] then h else Put(PutAll(h, s[..|s| - 1]), s[|s| - 1].obj)
  }

  function Exit(k: State, p: nat): State
    requires p < |k.spaces|
  {
    State(PutAll(k.heap, k.spaces[p].areas), k.spaces[p := EMPTY_SPACE], k.files)
  }

  // ----- mmap: vmmap_map -----

  /** lo == 0 asks for any free range. No file asks for zeros. */
  datatype Request = Request(lo: nat, n: nat, off: nat, prot: Prot, shared: bool, file: Option<nat>)

  /** What vmmap_map asserts of its arguments, and that a scan of an empty map is not asked for. */
  predicate MapOk(k: State, p: nat, r: Request) {
    && p < |k.spaces|
    && 0 < r.n
    && (r.lo == 0 ==> k.spaces[p].areas != [])
    && (r.lo == 0 || (USER_LOW <= r.lo && r.lo + r.n <= USER_HIGH))
    && (r.file.Some? ==> IsFile(k.heap, r.file.value))
  }

  datatype Made = Made(heap: Heap, obj: nat)

  function MakeBottom(h: Heap, file: Option<nat>): Made {
    match file
    case None => Made(h + [Obj(1, map[], Anon)], |h|)
    case Some(f) => Made(Ref(h, f), f)
  }

  function MakeObj(h: Heap, r: Request): Made {
    var b := MakeBottom(h, r.file);
    if r.shared then b else Made(Ref(b.heap, b.obj) + [Obj(1, map[], Shadow(b.obj, b.obj))], |b.heap|)
  }

  function Attach(k: State, p: nat, l: nat, r: Request): State
    requires p < |k.spaces|
  {
    var s := k.spaces[p];
    var m := MakeObj(k.heap, r);
    var a := Area(l, l + r.n, r.off, r.prot, r.shared, m.obj);
    State(m.heap, k.spaces[p := Space(Insert(s.areas, a), s.ptes, s.startBrk, s.brk)], k.files)
  }

  function Target(k: State, p: nat, r: Request): Option<nat>
    requires p < |k.spaces|
  {
    if r.lo == 0 then FindRange(k.spaces[p].areas, r.n) else Some(r.lo)
  }

  predicate IsClear(k: State, p: nat, l: nat, r: Request)
    requires p < |k.spaces|
  {
    r.lo == 0 || RangeEmpty(k.spaces[p].areas, l, l + r.n)
  }

  /** Room at [l, l + n): what is there goes, unless the range was searched for. */
  function Cleared(k: State, p: nat, l: nat, r: Request): State
    requires p < |k.spaces|
  {
    if IsClear(k, p, l, r) then k else Unmap(k, p, l, l + r.n)
  }

  function Mmap(k: State, p: nat, r: Request): State
    requires MapOk(k, p, r)
  {
    match Target(k, p, r)
    case None => k
    case Some(l) => Attach(Cleared(k, p, l, r), p, l, r)
  }

  // ----- fork: handle_memory_object and do_fork -----

  datatype Forked = Forked(heap: Heap, parent: seq<Area>, child: seq<Area>)

  /** A private area gives parent and child each a new shadow over the object both had so far;
      a shared area gives the child one more reference on the same object. */
  function ForkOne(h: Heap, a: Area): Forked {
    if a.shared then Forked(Ref(h, a.obj), [a], [a])
    else
      var b := BottomOf(h, a.obj);
      var g := Ref(Ref(Ref(h, a.obj), b), b);
      var x := Obj(1, map[], Shadow(a.obj, b));
      Forked(g + [x] + [x], [a.(obj := |h|)], [a.(obj := |h| + 1)])
  }

  function ForkAll(h: Heap, s: seq<Area>): Forked {
    if s == [] then Forked(h, [], [])
    else
      var f := ForkAll(h, s[..|s| - 1]);
      var g := ForkOne(f.heap, s[|s| - 1]);
      Forked(g.heap, f.parent + g.parent, f.child + g.child)
  }

  /** The new process takes the next number; the page table of the parent is flushed. */
  function Fork(k: State, p: nat): State
    requires p < |k.spaces|
  {
    var s := k.spaces[p];
    var f := ForkAll(k.heap, s.areas);
    State(f.heap,
          k.spaces[p := Space(f.parent, map[], s.startBrk, s.brk)] + [Space(f.child, map[], s.startBrk, s.brk)],
          k.files)
  }

  // ----- Access: page faults, kernel reads and writes, stores of the process itself -----

  predicate Denied(prot: Prot, write: bool, exec: bool) {
    (write && !prot.write) || (!write && !exec && !prot.read) || (exec && !prot.exec)
  }

  function SetPtes(k: State, p: nat, ptes: map<nat, Pte>, h: Heap): State
    requires p < |k.spaces|
  {
    var s := k.spaces[p];
    State(h, k.spaces[p := Space(s.areas, ptes, s.startBrk, s.brk)], k.files)
  }

  /** handle_pagefault: an access that is not permitted ends the process. */
  function Fault(k: State, p: nat, v: nat, write: bool, exec: bool): State
    requires p < |k.spaces|
  {
    match AtPage(k, p, v)
    case None => Exit(k, p)
    case Some(m) =>
      if Denied(m.prot, write, exec) then Exit(k, p)
      else
        var f := if write then LookupWrite(k.heap, m.obj, m.page) else LookupRead(k.heap, m.obj, m.page);
        match f.frame
        case None => Exit(k, p)
        case Some(o) => SetPtes(k, p, k.spaces[p].ptes[v := Pte(o, m.page, write)], f.heap)
  }

  /** One page of vmmap_read: a bottom page may become resident. */
  function KernelRead(k: State, p: nat, v: nat): State {
    match AtPage(k, p, v)
    case None => k
    case Some(m) => State(LookupRead(k.heap, m.obj, m.page).heap, k.spaces, k.files)
  }

  /** Bytes of a page replaced from position at on. */
  function Splice(c: Page, at: nat, bytes: seq<Byte>): Page
    requires at + |bytes| <= PAGE_SIZE
  {
    c[..at] + bytes + c[at + |bytes|..]
  }

  /** One page of vmmap_write. */
  function KernelWrite(k: State, p: nat, v: nat, at: nat, bytes: seq<Byte>): State
    requires at + |bytes| <= PAGE_SIZE
  {
    match AtPage(k, p, v)
    case None => k
    case Some(m) =>
      var f := LookupWrite(k.heap, m.obj, m.page);
      if f.frame.Some? && Live(f.heap, m.obj) && m.page in f.heap[m.obj].pages then
        State(StorePage(f.heap, m.obj, m.page, Splice(f.heap[m.obj].pages[m.page], at, bytes)), k.spaces, k.files)
      else k
  }

  predicate CanStore(k: State, p: nat, v: nat) {
    && p < |k.spaces| && v in k.spaces[p].ptes
    && var e := k.spaces[p].ptes[v];
       e.writable && Live(k.heap, e.obj) && e.page in k.heap[e.obj].pages
  }

  /** A store of the process, straight to the frame its page table names. */
  function UserStore(k: State, p: nat, v: nat, at: nat, bytes: seq<Byte>): State
    requires at + |bytes| <= PAGE_SIZE
  {
    if CanStore(k, p, v) then
      var e := k.spaces[p].ptes[v];
      State(StorePage(k.heap, e.obj, e.page, Splice(k.heap[e.obj].pages[e.page], at, bytes)), k.spaces, k.files)
    else k
  }

  // ----- brk -----

  function PageUp(addr: nat): nat {
    (addr + PAGE_SIZE - 1) / PAGE_SIZE
  }

  function SetBreaks(k: State, p: nat, start: nat, addr: nat): State
    requires p < |k.spaces|
  {
    var s := k.spaces[p];
    State(k.heap, k.spaces[p := Space(s.areas, s.ptes, start, addr)], k.files)
  }

  function SetBrk(k: State, p: nat, addr: nat): State
    requires p < |k.spaces|
  {
    SetBreaks(k, p, k.spaces[p].startBrk, addr)
  }

  function Grow(k: State, p: nat, i: nat, end: nat): State
    requires p < |k.spaces| && i < |k.spaces[p].areas|
  {
    var s := k.spaces[p];
    State(k.heap, k.spaces[p := Space(s.areas[i := s.areas[i].(end := end)], s.ptes, s.startBrk, s.brk)], k.files)
  }

  /** The page of the start of the break is mapped. */
  predicate HeapFound(k: State, p: nat) {
    p < |k.spaces| && Find(k.spaces[p].areas, k.spaces[p].startBrk / PAGE_SIZE).Some?
  }

  /** validate_brk_addr */
  predicate BrkRefused(s: Space, addr: nat) {
    addr < s.startBrk || addr > USER_HIGH * PAGE_SIZE
  }

  /** Where do_brk moves the break it uses the area of p_start_brk without checking that there is one. */
  predicate BrkOk(k: State, p: nat, addr: nat) {
    p < |k.spaces| && (addr != 0 && !BrkRefused(k.spaces[p], addr) ==> HeapFound(k, p))
  }

  /** None stands for -ENOMEM. Address 0 only asks for the current break. */
  function Brk(k: State, p: nat, addr: nat): Option<State>
    requires BrkOk(k, p, addr)
  {
    var s := k.spaces[p];
    if addr == 0 then Some(k)
    else if BrkRefused(s, addr) then None
    else
      var i := Find(s.areas, s.startBrk / PAGE_SIZE).value;
      var prev, cur := s.areas[i].end, PageUp(addr);
      if prev < cur then
        if RangeEmpty(s.areas, prev, cur) then Some(SetBrk(Grow(k, p, i, cur), p, addr)) else None
      else if cur < prev then Some(SetBrk(Unmap(k, p, cur, prev), p, addr))
      else Some(SetBrk(k, p, addr))
  }
}

/** Bookkeeping of the references held by areas. */
module Holders {
  import opened Wrappers
  import opened Areas
  import opened Objects
  import opened Kernel

  lemma {:induction false} AreaRefsSplit(sp: seq<Space>, p: nat)
    requires p < |sp|
    ensures AreaRefs(sp) == AreaRefs(sp[p := EMPTY_SPACE]) + ObjsOf(sp[p].areas)
  {
    var n := |sp| - 1;
    var e := sp[p := EMPTY_SPACE];
    if p == n {
      assert e[..n] == sp[..n];
    } else {
      assert e[..n] == sp[..n][p := EMPTY_SPACE];
      assert e[n] == sp[n] && sp[..n][p] == sp[p];
      AreaRefsSplit(sp[..n], p);
    }
  }

  lemma RefsSplit(k: State, p: nat)
    requires p < |k.spaces|
    ensures Refs(k) == OtherRefs(k, p) + ObjsOf(k.spaces[p].areas)
  {
    AreaRefsSplit(k.spaces, p);
  }

  lemma RefsOfUpdate(k: State, p: nat, h: Heap, x: Space)
    requires p < |k.spaces|
    ensures Refs(State(h, k.spaces[p := x], k.files)) == OtherRefs(k, p) + ObjsOf(x.areas)
  {
    var j := State(h, k.spaces[p := x], k.files);
    assert j.spaces[p := EMPTY_SPACE] == k.spaces[p := EMPTY_SPACE];
    RefsSplit(j, p);
  }

  lemma {:induction false} ObjsOfAppend(s: seq<Area>, t: seq<Area>)
    ensures ObjsOf(s + t) == ObjsOf(s) + ObjsOf(t)
  {
    if t == [] {
      assert s + t == s;
    } else {
      var n := |t| - 1;
      assert (s + t)[..|s + t| - 1] == s + t[..n];
      ObjsOfAppend(s, t[..n]);
    }
  }

  lemma ObjsOfOne(a: Area)
    ensures ObjsOf([a]) == multiset{a.obj}
  {
    assert [a][..0] == [];
  }

  lemma {:induction false} ObjsOfHas(s: seq<Area>, a: Area)
    requires a in s
    ensures a.obj in ObjsOf(s)
  {
    if a != s[|s| - 1] {
      assert a in s[..|s| - 1];
      ObjsOfHas(s[..|s| - 1], a);
    }
  }
}
