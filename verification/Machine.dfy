/** The kernel as it runs: the loops over lists, chains and pages, each proved to compute the
    step function of module Kernel. */
module Scans {
  import opened Wrappers
  import opened Areas

  /** vmmap_lookup: the scan goes on after a hit but keeps the first one. */
  method Lookup(s: seq<Area>, v: nat) returns (r: Option<nat>)
    ensures r == Find(s, v)
  {
    r := None;
    for i := 0 to |s|
      invariant r.Some? ==> r.value < i && Covers(s[r.value], v) && forall j | 0 <= j < r.value :: !Covers(s[j], v)
      invariant r.None? ==> forall j | 0 <= j < i :: !Covers(s[j], v)
    {
      if r == None && s[i].start <= v && s[i].end > v {
        r := Some(i);
      }
    }
  }

  /** vmmap_is_range_empty */
  method IsRangeEmpty(s: seq<Area>, start: nat, n: nat) returns (empty: bool)
    requires Sorted(s) && 0 < n
    ensures empty <==> RangeEmpty(s, start, start + n)
  {
    empty := true;
    for i := 0 to |s|
      invariant empty <==> forall j | 0 <= j < i :: s[j].end <= start || start + n <= s[j].start
    {
      if s[i].start < start + n && s[i].end > start {
        empty := false;
      }
    }
    NoOverlap(s, start, n);
  }

  lemma NoOverlap(s: seq<Area>, start: nat, n: nat)
    requires Sorted(s) && 0 < n
    ensures RangeEmpty(s, start, start + n) <==> forall j | 0 <= j < |s| :: s[j].end <= start || start + n <= s[j].start
  {
    if RangeEmpty(s, start, start + n) {
      forall j | 0 <= j < |s|
        ensures s[j].end <= start || start + n <= s[j].start
      {
        var v := if s[j].start < start then start else s[j].start;
        assert start <= v < start + n ==> At(s, v).None?;
        assert Covers(s[j], v) ==> Find(s, v).Some?;
      }
    }
  }

  /** vmmap_insert: before the first area that starts at or after the end of the new one. */
  method InsertArea(s: seq<Area>, a: Area) returns (t: seq<Area>)
    ensures t == Insert(s, a)
  {
    var i := 0;
    while i < |s| && s[i].start < a.end
      invariant i <= |s| && forall j | 0 <= j < i :: s[j].start < a.end
    {
      i := i + 1;
    }
    assert InsertPos(s, a) == i;
    t := s[..i] + [a] + s[i..];
  }

  /** vmmap_find_range, scanning backwards; it reads the first area, so there must be one. */
  method FindGap(s: seq<Area>, n: nat) returns (r: Option<nat>)
    requires Sorted(s) && s != []
    ensures r == FindRange(s, n)
  {
    r := None;
    var top := USER_HIGH;
    var i := |s|;
    assert s[..i] == s;
    while i > 0
      invariant 0 <= i <= |s|
      invariant i > 0 ==> s[i - 1].end <= top
      invariant i == 0 ==> top == s[0].start
      invariant r.None? ==> FindRange(s, n) == FindBelow(s[..i], top, n)
      invariant r.Some? ==> FindRange(s, n) == r
    {
      i := i - 1;
      if r == None && n <= top - s[i].end {
        r := Some(top - n);
      }
      assert s[..i + 1][..i] == s[..i] && s[..i + 1][i] == s[i];
      top := s[i].start;
    }
    if r == None && n <= s[0].start - USER_LOW {
      r := Some(s[0].start - n);
    }
  }

  /** vmmap_clone: the areas of the copy have no object yet. */
  method Clone(s: seq<Area>) returns (t: seq<Area>)
    ensures |t| == |s| && forall i | 0 <= i < |s| :: t[i] == s[i].(obj := 0)
  {
    t := [];
    for i := 0 to |s|
      invariant |t| == i && forall j | 0 <= j < i :: t[j] == s[j].(obj := 0)
    {
      t := t + [s[i].(obj := 0)];
    }
  }
}

/** Permission checks on user addresses (kernel/api/access.c). */
module UserRange {
  import opened Wrappers
  import opened Areas
  import opened Objects
  import opened Scans
  import opened Words

  const READ: Prot := Prot(true, false, false)
  const WRITE: Prot := Prot(false, true, false)

  /** A mapped page that permits at least perm. */
  predicate Allows(m: Option<Mapping>, perm: Prot) {
    && m.Some?
    && (perm.read ==> m.value.prot.read) && (perm.write ==> m.value.prot.write) && (perm.exec ==> m.value.prot.exec)
  }

  method AddrPerm(s: seq<Area>, addr: nat, perm: Prot) returns (ok: bool)
    ensures ok == Allows(At(s, addr / PAGE_SIZE), perm)
    ensures var m := At(s, addr / PAGE_SIZE);
            ok <==> m.Some? && (perm.read ==> m.value.prot.read) && (perm.write ==> m.value.prot.write) &&
                    (perm.exec ==> m.value.prot.exec)
  {
    var i := Lookup(s, addr / PAGE_SIZE);
    ok := i.Some? && (perm.read ==> s[i.value].prot.read) && (perm.write ==> s[i.value].prot.write) &&
          (perm.exec ==> s[i.value].prot.exec);
  }

  /** The pages range_perm looks at: up to and including that of addr + len, taken modulo 2^32. */
  ghost predicate Checked(s: seq<Area>, addr: nat, len: nat, perm: Prot) {
    forall v: nat | addr / PAGE_SIZE <= v <= ((addr + len) % WORD) / PAGE_SIZE :: Allows(At(s, v), perm)
  }

  method RangePerm(s: seq<Area>, addr: nat, len: nat, perm: Prot) returns (ok: bool)
    requires addr < WORD && len < WORD
    ensures ok <==> Checked(s, addr, len, perm)
  {
    var pn, last := addr / PAGE_SIZE, ((addr + len) % WORD) / PAGE_SIZE;
    while pn <= last
      invariant addr / PAGE_SIZE <= pn
      invariant forall v: nat | addr / PAGE_SIZE <= v < pn :: Allows(At(s, v), perm)
      decreases last + 1 - pn
    {
      var one := AddrPerm(s, pn * PAGE_SIZE, perm);
      if !one {
        assert !Allows(At(s, pn), perm);
        return false;
      }
      pn := pn + 1;
    }
    ok := true;
  }

  /** Every byte of [addr, addr + len) lies in a page that permits perm. */
  ghost predicate Permitted(s: seq<Area>, addr: nat, len: nat, perm: Prot) {
    forall a: nat | addr <= a < addr + len :: Allows(At(s, a / PAGE_SIZE), perm)
  }

  /** Where nothing wraps round, the check asks for the range and for the page of the byte behind it. */
  lemma CheckedIs(s: seq<Area>, addr: nat, len: nat, perm: Prot)
    requires addr + len < WORD
    ensures Checked(s, addr, len, perm) <==>
            Permitted(s, addr, len, perm) && Allows(At(s, (addr + len) / PAGE_SIZE), perm)
  {
    assert (addr + len) % WORD == addr + len;
    if Permitted(s, addr, len, perm) && Allows(At(s, (addr + len) / PAGE_SIZE), perm) {
      forall v: nat | addr / PAGE_SIZE <= v <= (addr + len) / PAGE_SIZE
        ensures Allows(At(s, v), perm)
      {
        var a := if v == addr / PAGE_SIZE then addr else v * PAGE_SIZE;
        assert a / PAGE_SIZE == v;
        assert addr <= a <= addr + len;
      }
    }
    if Checked(s, addr, len, perm) {
      forall a: nat | addr <= a < addr + len
        ensures Allows(At(s, a / PAGE_SIZE), perm)
      {
        assert addr / PAGE_SIZE <= a / PAGE_SIZE <= (addr + len) / PAGE_SIZE;
      }
    }
  }

  predicate MayRead(s: seq<Area>, addr: nat) {
    At(s, addr / PAGE_SIZE).Some? && At(s, addr / PAGE_SIZE).value.prot.read
  }

  predicate MayWrite(s: seq<Area>, addr: nat) {
    At(s, addr / PAGE_SIZE).Some? && At(s, addr / PAGE_SIZE).value.prot.write
  }

  /** What copy_from_user asks for, byte by byte. */
  lemma MayReadAll(s: seq<Area>, addr: nat, len: nat)
    requires addr + len < WORD
    ensures Checked(s, addr, len, READ) <==> forall a: nat | addr <= a <= addr + len :: MayRead(s, a)
  {
    CheckedIs(s, addr, len, READ);
    hide Checked;
    assert forall a: nat :: MayRead(s, a) == Allows(At(s, a / PAGE_SIZE), READ);
  }

  /** What copy_to_user asks for, byte by byte. */
  lemma MayWriteAll(s: seq<Area>, addr: nat, len: nat)
    requires addr + len < WORD
    ensures Checked(s, addr, len, WRITE) <==> forall a: nat | addr <= a <= addr + len :: MayWrite(s, a)
  {
    CheckedIs(s, addr, len, WRITE);
    hide Checked;
    assert forall a: nat :: MayWrite(s, a) == Allows(At(s, a / PAGE_SIZE), WRITE);
  }

  /** Where the end wraps round, the check asks for the first page if the end falls back into it, and for
      nothing at all otherwise; the range itself reaches beyond user memory. */
  lemma WrappedIs(s: seq<Area>, addr: nat, len: nat, perm: Prot)
    requires Sorted(s) && addr < WORD && len < WORD && addr + len >= WORD
    ensures !Permitted(s, addr, len, perm)
    ensures Checked(s, addr, len, perm) <==>
            (addr / PAGE_SIZE == (addr + len - WORD) / PAGE_SIZE ==> Allows(At(s, addr / PAGE_SIZE), perm))
  {
    assert (addr + len) % WORD == addr + len - WORD;
    assert addr <= WORD - 1 < addr + len;
    assert !Allows(At(s, (WORD - 1) / PAGE_SIZE), perm);
  }

  /** The range lies in user memory. */
  predicate InUser(addr: nat, len: nat) {
    USER_LOW * PAGE_SIZE <= addr && addr + len <= USER_HIGH * PAGE_SIZE
  }

  /** The ranges for which range_perm decides permission. */
  predicate Decided(addr: nat, len: nat) {
    if addr + len < WORD then len > 0 && ((addr + len) % PAGE_SIZE != 0 || !InUser(addr, len))
    else addr / PAGE_SIZE == (addr + len - WORD) / PAGE_SIZE && !(USER_LOW <= addr / PAGE_SIZE < USER_HIGH)
  }

  /** The map that has exactly the pages of the range. */
  function Tight(addr: nat, len: nat, perm: Prot): seq<Area> {
    if len == 0 then [] else [Area(addr / PAGE_SIZE, (addr + len) / PAGE_SIZE, 0, perm, true, 0)]
  }

  /** range_perm decides permission for a range of 32-bit addresses, whatever the map, if and only if the
      range does not wrap round, is not empty, and does not end on a page boundary in user memory; or it
      wraps round into its own first page, outside user memory. */
  lemma RangePermExact(addr: nat, len: nat, perm: Prot)
    requires addr < WORD && len < WORD
    ensures (forall s: seq<Area> | Sorted(s) :: Checked(s, addr, len, perm) <==> Permitted(s, addr, len, perm)) <==>
            Decided(addr, len)
  {
    if Decided(addr, len) {
      forall s: seq<Area> | Sorted(s)
        ensures Checked(s, addr, len, perm) <==> Permitted(s, addr, len, perm)
      {
        DecidedRange(s, addr, len, perm);
      }
    } else {
      var s := Refuted(addr, len, perm);
      assert Sorted(s) && Checked(s, addr, len, perm) != Permitted(s, addr, len, perm);
    }
  }

  lemma DecidedRange(s: seq<Area>, addr: nat, len: nat, perm: Prot)
    requires Sorted(s) && addr < WORD && len < WORD && Decided(addr, len)
    ensures Checked(s, addr, len, perm) <==> Permitted(s, addr, len, perm)
  {
    if addr + len >= WORD {
      WrappedIs(s, addr, len, perm);
      assert !Allows(At(s, addr / PAGE_SIZE), perm);
    } else {
      CheckedIs(s, addr, len, perm);
      if (addr + len) % PAGE_SIZE != 0 {
        assert (addr + len - 1) / PAGE_SIZE == (addr + len) / PAGE_SIZE;
        assert addr <= addr + len - 1 < addr + len;
      } else {
        OutsideUser(s, addr, len, perm);
      }
    }
  }

  /** No range that leaves user memory is permitted. */
  lemma OutsideUser(s: seq<Area>, addr: nat, len: nat, perm: Prot)
    requires Sorted(s) && len > 0 && !InUser(addr, len)
    ensures !Permitted(s, addr, len, perm)
  {
    var a := if addr < USER_LOW * PAGE_SIZE then addr else addr + len - 1;
    assert addr <= a < addr + len;
    assert !(USER_LOW <= a / PAGE_SIZE < USER_HIGH);
    assert !Allows(At(s, a / PAGE_SIZE), perm);
  }

  /** For every other range there is a map on which the check is wrong. */
  lemma Refuted(addr: nat, len: nat, perm: Prot) returns (s: seq<Area>)
    requires addr < WORD && len < WORD && !Decided(addr, len)
    ensures Sorted(s) && Checked(s, addr, len, perm) != Permitted(s, addr, len, perm)
  {
    if addr + len < WORD {
      s := if len == 0 then [] else Tight(addr, len, perm);
      if len == 0 { CheckedIs(s, addr, len, perm); } else { TightRefused(addr, len, perm); }
    } else {
      var v := addr / PAGE_SIZE;
      s := if v == (addr + len - WORD) / PAGE_SIZE then [Area(v, v + 1, 0, perm, true, 0)] else [];
      WrappedIs(s, addr, len, perm);
      if s != [] { AtSingle(s[0], v); }
    }
  }

  /** A map with exactly the pages of a range that ends on a page boundary, or of an empty range, is refused. */
  lemma TightRefused(addr: nat, len: nat, perm: Prot)
    requires USER_LOW * PAGE_SIZE <= addr && addr + len <= USER_HIGH * PAGE_SIZE
    requires len == 0 || (addr + len) % PAGE_SIZE == 0
    ensures var s := Tight(addr, len, perm);
            Sorted(s) && Permitted(s, addr, len, perm) && !Checked(s, addr, len, perm)
  {
    var s := Tight(addr, len, perm);
    CheckedIs(s, addr, len, perm);
    if len > 0 {
      forall a: nat | addr <= a < addr + len
        ensures Allows(At(s, a / PAGE_SIZE), perm)
      {
        AtSingle(s[0], a / PAGE_SIZE);
      }
      AtSingle(s[0], (addr + len) / PAGE_SIZE);
    }
  }

  /** With nothing mapped at all, a range that wraps round passes the check. */
  lemma WrapAccepted(perm: Prot)
    ensures Checked([], 0x1000_0000, 0xF000_0001, perm) && !Permitted([], 0x1000_0000, 0xF000_0001, perm)
  {
    WrappedIs([], 0x1000_0000, 0xF000_0001, perm);
  }
}

module Machine {
  import opened Wrappers
  import opened Areas
  import opened Objects
  import opened Overlay
  import opened Kernel
  import opened Holders
  import opened Access
  import opened Removal
  import opened Creation
  import opened Forking
  import opened Flat
  import opened Representation
  import opened Bytes
  import opened Regrowth
  import opened Effects
  import opened Scans
  import opened UserRange
  import opened Words

  class Vm {
    var heap: Heap
    var spaces: seq<Space>
    var files: multiset<nat>

    ghost function St(): State
      reads this
    {
      State(heap, spaces, files)
    }

    // ----- Putting objects and freeing their pages -----

    /** shadow_put and anon_put. m holds the references that remain. Freeing a resident page puts the
        object again, but always as a plain decrement, so a destruction is never started twice. */
    method PutObj(o: nat, ghost m: multiset<nat>)
      requires Valid(heap, m + multiset{o})
      modifies this`heap
      ensures heap == Put(old(heap), o) && Valid(heap, m)
      decreases o, if Live(heap, o) then |heap[o].pages| else 0, 1
    {
      assert ExactAt(heap, m + multiset{o}, o);
      PutKeeps(heap, o, m);
      if heap[o].refs - 1 != |heap[o].pages| {
        heap := heap[o := Obj(heap[o].refs - 1, heap[o].pages, heap[o].kind)];
        return;
      }
      ghost var h0 := heap;
      while heap[o].pages.Keys != {}
        invariant |heap| == |h0| && heap == h0[o := heap[o]] && Live(heap, o)
        invariant heap[o].kind == h0[o].kind && heap[o].refs == |heap[o].pages| + 1
        invariant |heap[o].pages| <= |h0[o].pages|
        invariant Valid(heap, m + multiset{o})
        decreases |heap[o].pages|
      {
        var n :| n in heap[o].pages.Keys;
        PframeFree(o, n, m + multiset{o});
      }
      var kind := heap[o].kind;
      FreeOne(heap, o, m);
      heap := heap[o := Free];
      assert heap == h0[o := Free];
      if kind.Shadow? {
        assert LinkOk(h0, o, kind.shadowed, kind.bottom);
        assert m + Out(h0[o]) == m + multiset{kind.bottom} + multiset{kind.shadowed};
        PutObj(kind.shadowed, m + multiset{kind.bottom});
        PutObj(kind.bottom, m);
      }
    }

    /** pframe_free: the page goes, and with it the reference it held on its object. */
    method PframeFree(o: nat, n: nat, ghost m: multiset<nat>)
      requires Valid(heap, m) && Live(heap, o) && n in heap[o].pages
      modifies this`heap
      ensures Live(heap, o) && heap == old(heap)[o := heap[o]] && Valid(heap, m)
      ensures heap[o].refs + 1 == old(heap)[o].refs && heap[o].kind == old(heap)[o].kind
      ensures heap[o].pages == old(heap)[o].pages - {n}
      decreases o, if Live(heap, o) then |heap[o].pages| else 0, 0
    {
      assert ExactAt(heap, m, o);
      UncacheValid(heap, o, n, m);
      assert |heap[o].pages - {n}| == |heap[o].pages| - 1;
      heap := heap[o := Obj(heap[o].refs, heap[o].pages - {n}, heap[o].kind)];
      PutObj(o, m);
    }

    // ----- Looking up pages -----

    /** pframe_get on a bottom object: allocate a frame with arbitrary contents, fill it, and free it
        again when the fill fails. */
    method GetBottom(b: nat, n: nat, junk: Page, ghost m: multiset<nat>) returns (frame: Option<nat>)
      requires Valid(heap, m) && Live(heap, b) && !IsShadow(heap, b)
      modifies this`heap
      ensures heap == Fill(old(heap), b, n)
      ensures frame == if Held(old(heap), b, n).Some? then Some(b) else None
    {
      if n in heap[b].pages {
        return Some(b);
      }
      ghost var h0 := heap;
      AddPageValid(heap, b, n, junk, m);
      heap := AddPage(heap, b, n, junk);
      match heap[b].kind {
        case Anon =>
          heap := StorePage(heap, b, n, ZeroPage());
          frame := Some(b);
        case File(store) =>
          if n in store {
            heap := StorePage(heap, b, n, store[n]);
            frame := Some(b);
          } else {
            PframeFree(b, n, m);
            assert h0[b].pages[n := junk] - {n} == h0[b].pages;
            frame := None;
          }
      }
      assert n in h0[b].pages[n := junk];
      assert frame.Some? ==> h0[b].pages[n := junk][n := Held(h0, b, n).value] == h0[b].pages[n := Held(h0, b,
             n).value];
    }

    /** lookuppage without forwrite: walk down the chain, then ask the bottom object. */
    method LookupForRead(o: nat, n: nat, junk: Page, ghost m: multiset<nat>) returns (frame: Option<nat>)
      requires Valid(heap, m) && Live(heap, o)
      modifies this`heap
      ensures heap == LookupRead(old(heap), o, n).heap && frame == LookupRead(old(heap), o, n).frame
    {
      SourceIs(heap, o, n);
      var cur, found := o, false;
      while !found && heap[cur].kind.Shadow?
        invariant Live(heap, cur) && Source(heap, cur, n) == Source(heap, o, n)
        invariant found ==> n in heap[cur].pages
        decreases cur, !found
      {
        assert LinkOk(heap, cur, heap[cur].kind.shadowed, heap[cur].kind.bottom);
        if n in heap[cur].pages {
          found := true;
        } else {
          cur := heap[cur].kind.shadowed;
        }
      }
      if found {
        frame := Some(cur);
      } else {
        assert !IsShadow(heap, Source(heap, o, n));
        frame := GetBottom(BottomOf(heap, o), n, junk, m);
      }
    }

    /** shadow_fillpage: find the contents of page n below o; o itself already has a frame for it. */
    method FillShadow(o: nat, n: nat, junk: Page, ghost m: multiset<nat>) returns (c: Option<Page>)
      requires Valid(heap, m) && IsShadow(heap, o)
      modifies this`heap
      ensures var s := old(heap)[o].kind.shadowed;
              c == Content(old(heap), s, n) && heap == LookupRead(old(heap), s, n).heap
    {
      var cur := heap[o].kind.shadowed;
      assert LinkOk(heap, o, cur, heap[o].kind.bottom);
      LookupReadKeeps(heap, cur, n, m);
      SourceIs(heap, cur, n);
      ghost var s := cur;
      while n !in heap[cur].pages && heap[cur].kind.Shadow?
        invariant Live(heap, cur) && Source(heap, cur, n) == Source(heap, s, n)
        decreases cur
      {
        assert LinkOk(heap, cur, heap[cur].kind.shadowed, heap[cur].kind.bottom);
        cur := heap[cur].kind.shadowed;
      }
      if n in heap[cur].pages {
        c := Some(heap[cur].pages[n]);
      } else {
        var b := heap[o].kind.bottom;
        assert b == Source(heap, s, n);
        var frame := GetBottom(b, n, junk, m);
        if frame.Some? {
          c := Some(heap[b].pages[n]);
        } else {
          c := None;
        }
      }
    }

    /** lookuppage with forwrite: a shadow object without the page gets a frame, filled from below. */
    method LookupForWrite(o: nat, n: nat, junk: Page, ghost m: multiset<nat>) returns (frame: Option<nat>)
      requires Valid(heap, m) && Live(heap, o)
      modifies this`heap
      ensures heap == LookupWrite(old(heap), o, n).heap && frame == LookupWrite(old(heap), o, n).frame
    {
      ghost var h0 := heap;
      SourceIs(heap, o, n);
      if !heap[o].kind.Shadow? {
        frame := GetBottom(o, n, junk, m);
      } else if n in heap[o].pages {
        frame := Some(o);
      } else {
        ghost var s := heap[o].kind.shadowed;
        assert LinkOk(heap, o, s, heap[o].kind.bottom);
        AddPageValid(heap, o, n, junk, m);
        heap := AddPage(heap, o, n, junk);
        SourceBelow(h0, heap, s, n, o);
        SourceIs(h0, s, n);
        var c := FillShadow(o, n, junk, m);
        LookupReadKeeps(AddPage(h0, o, n, junk), s, n, m);
        if c.Some? {
          heap := StorePage(heap, o, n, c.value);
          frame := Some(o);
        } else {
          PframeFree(o, n, m);
          frame := None;
        }
        FillCommutes(h0, o, n, junk, Source(h0, o, n));
      }
    }

    // ----- Lists of areas -----

    /** One turn of vmmap_remove on the area at position i: split, trim, drop or leave it. The half
        split off is inserted while the area it comes from still overlaps it. */
    method CutArea(list: seq<Area>, i: nat, lo: nat, hi: nat, ghost rest: seq<Area>, ghost r: multiset<nat>)
      returns (list': seq<Area>, i': nat)
      requires lo <= hi && i < |list| && rest == list[i + 1..] && ValidArea(list[i])
      requires Valid(heap, r + ObjsOf(list[..i]) + ObjsOf(rest) + multiset{list[i].obj})
      requires list[i].start < lo && hi < list[i].end ==>
                 Insert(list, Upper(list[i], hi)) == list[..i] + [list[i]] + [Upper(list[i], hi)] + rest
      modifies this`heap
      ensures heap == CutEffect(old(heap), list[i], lo, hi)
      ensures list' == list[..i] + Cut(list[i], lo, hi) + rest && i' == i + |Cut(list[i], lo, hi)|
    {
      hide ObjsOf, Put, Insert;
      var tmp := list[i];
      list', i' := list, i + 1;
      if tmp.start < lo && tmp.end > hi {
        list' := InsertArea(list, Upper(tmp, hi));
        heap := Ref(heap, tmp.obj);
        list', i' := list'[i := tmp.(end := lo)], i + 2;
      } else if tmp.start < lo && tmp.end > lo && tmp.end <= hi {
        list' := list[i := tmp.(end := lo)];
      } else if tmp.end > hi && tmp.start < hi && tmp.start >= lo {
        list' := list[i := Upper(tmp, hi)];
      } else if tmp.start >= lo && tmp.end <= hi {
        PutObj(tmp.obj, r + ObjsOf(list[..i]) + ObjsOf(rest));
        list', i' := list[..i] + list[i + 1..], i;
      }
    }

    /** The loop of vmmap_remove: one pass over the areas that are there at the start. */
    method CutLoop(s: seq<Area>, lo: nat, hi: nat, ghost r: multiset<nat>) returns (list: seq<Area>)
      requires lo <= hi && Sorted(s) && Valid(heap, r + ObjsOf(s))
      modifies this`heap
      ensures heap == CutHeap(old(heap), s, lo, hi) && list == CutAll(s, lo, hi)
    {
      hide Valid, ObjsOf, CutEffect, Cut, CutAll, CutHeap, Insert, Upper, Progress;
      var i := 0;
      list := s;
      ProgressStart(s, lo, hi, heap, r);
      for j := 0 to |s|
        invariant Progress(s, j, lo, hi, list, i, old(heap), heap, r)
      {
        ProgressTurn(s, j, lo, hi, list, i, old(heap), heap, r);
        list, i := CutArea(list, i, lo, hi, s[j + 1..], r);
      }
      ProgressEnd(s, lo, hi, list, i, old(heap), heap, r);
    }

    /** vmmap_remove */
    method Remove(p: nat, lo: nat, n: nat)
      requires Inv(St()) && p < |spaces|
      modifies this`heap, this`spaces
      ensures St() == Unmap(old(St()), p, lo, lo + n)
    {
      var s := spaces[p];
      ghost var r := OtherRefs(St(), p);
      AreasHeld(St(), p);
      hide Inv, Valid, Sorted, OtherRefs, ObjsOf, CutAll, CutHeap, Outside;
      var list := CutLoop(s.areas, lo, lo + n, r);
      spaces := spaces[p := Space(list, Outside(s.ptes, lo, lo + n), s.startBrk, s.brk)];
    }

    /** vmmap_destroy */
    method Destroy(p: nat)
      requires Inv(St()) && p < |spaces|
      modifies this`heap, this`spaces
      ensures St() == Exit(old(St()), p)
    {
      var s := spaces[p].areas;
      AreasHeld(St(), p);
      PutLoop(s, OtherRefs(St(), p));
      spaces := spaces[p := EMPTY_SPACE];
    }

    method PutLoop(s: seq<Area>, ghost r: multiset<nat>)
      requires Valid(heap, r + ObjsOf(s))
      modifies this`heap
      ensures heap == PutAll(old(heap), s)
    {
      hide Valid, ObjsOf, Put;
      assert s[..0] == [] && s[0..] == s;
      for j := 0 to |s|
        invariant heap == PutAll(old(heap), s[..j]) && Valid(heap, r + ObjsOf(s[j..]))
      {
        assert s[..j + 1][..j] == s[..j] && s[..j + 1][j] == s[j];
        assert [] + s[j..] == s[j..];
        TurnRefs([], s, j, r);
        NoRefs(r, s[j + 1..]);
        PutObj(s[j].obj, r + ObjsOf(s[j + 1..]));
      }
      assert s[..|s|] == s;
    }

    // ----- mmap -----

    /** The object part of vmmap_map: an anonymous or file object, and a shadow over it if private. */
    method NewObject(r: Request) returns (obj: nat)
      requires r.file.Some? ==> IsFile(heap, r.file.value)
      modifies this`heap
      ensures heap == MakeObj(old(heap), r).heap && obj == MakeObj(old(heap), r).obj
    {
      if r.file.Some? {
        obj := r.file.value;
        heap := Ref(heap, obj);
      } else {
        obj := |heap|;
        heap := heap + [Obj(1, map[], Anon)];
      }
      if !r.shared {
        var bottom := BottomOf(heap, obj);
        heap := Ref(heap, bottom) + [Obj(1, map[], Shadow(obj, bottom))];
        obj := |heap| - 1;
      }
    }

    /** vmmap_map */
    method MapRange(p: nat, r: Request) returns (ok: bool)
      requires Inv(St()) && MapOk(St(), p, r)
      modifies this`heap, this`spaces
      ensures St() == Mmap(old(St()), p, r) && ok == Target(old(St()), p, r).Some?
    {
      hide Inv, Target, Cleared, Attach;
      ghost var k := St();
      if Target(k, p, r).Some? { RoomForFile(k, p, r); }
      var l := MakeRoom(p, r);
      if l.None? {
        return false;
      }
      Place(p, l.value, r);
      ok := true;
    }

    /** The first part of vmmap_map: find a range, or clear the one asked for. */
    method MakeRoom(p: nat, r: Request) returns (l: Option<nat>)
      requires Inv(St()) && MapOk(St(), p, r)
      modifies this`heap, this`spaces
      ensures l == Target(old(St()), p, r)
      ensures St() == if l.None? then old(St()) else Cleared(old(St()), p, l.value, r)
    {
      hide Inv, Unmap, RangeEmpty, FindRange;
      SortedOf(St(), p);
      if r.lo == 0 {
        l := FindGap(spaces[p].areas, r.n);
      } else {
        var empty := IsRangeEmpty(spaces[p].areas, r.lo, r.n);
        if !empty {
          Remove(p, r.lo, r.n);
        }
        l := Some(r.lo);
      }
    }

    method Place(p: nat, l: nat, r: Request)
      requires p < |spaces| && (r.file.Some? ==> IsFile(heap, r.file.value))
      modifies this`heap, this`spaces
      ensures St() == Attach(old(St()), p, l, r)
    {
      var s := spaces[p];
      var obj := NewObject(r);
      var list := InsertArea(s.areas, Area(l, l + r.n, r.off, r.prot, r.shared, obj));
      spaces := spaces[p := Space(list, s.ptes, s.startBrk, s.brk)];
    }

    // ----- fork -----

    /** handle_memory_object */
    method ForkArea(a: Area) returns (pa: Area, ca: Area)
      modifies this`heap
      ensures heap == ForkOne(old(heap), a).heap
      ensures ForkOne(old(heap), a).parent == [pa] && ForkOne(old(heap), a).child == [ca]
    {
      if !a.shared {
        var bottom := BottomOf(heap, a.obj);
        var n := |heap|;
        heap := Ref(heap, a.obj);
        heap := Ref(heap, bottom);
        heap := Ref(heap, bottom);
        heap := heap + [Obj(1, map[], Shadow(a.obj, bottom))] + [Obj(1, map[], Shadow(a.obj, bottom))];
        pa, ca := a.(obj := n), a.(obj := n + 1);
      } else {
        heap := Ref(heap, a.obj);
        pa, ca := a, a;
      }
    }

    /** The area loop of do_fork: every area of the copy finds its counterpart in the parent by address. */
    method ForkLoop(s: seq<Area>) returns (parent: seq<Area>, child: seq<Area>)
      requires Sorted(s)
      modifies this`heap
      ensures Forked(heap, parent, child) == ForkAll(old(heap), s)
    {
      hide ForkOne, ForkAll, Copied;
      parent := s;
      child := Clone(s);
      ghost var c := child;
      CopiedStart(s, c, heap);
      for i := 0 to |s|
        invariant Copied(s, c, i, old(heap), parent, child, heap)
      {
        ghost var h := heap;
        CopiedFinds(s, c, i, old(heap), parent, child, heap);
        var j := Lookup(parent, child[i].start);
        var pa, ca := ForkArea(parent[j.value]);
        CopiedTurn(s, c, i, old(heap), parent, child, h, pa, ca);
        parent := parent[j.value := pa];
        child := child[i := ca];
      }
      CopiedEnd(s, c, old(heap), parent, child, heap);
    }

    /** do_fork, as far as memory goes. */
    method ForkProcess(p: nat)
      requires Inv(St()) && p < |spaces|
      modifies this`heap, this`spaces
      ensures St() == Fork(old(St()), p) && |spaces| == old(|spaces|) + 1
      ensures spaces[old(|spaces|)].startBrk == spaces[p].startBrk == old(spaces[p].startBrk)
      ensures spaces[old(|spaces|)].brk == spaces[p].brk == old(spaces[p].brk)
    {
      var s := spaces[p];
      var parent, child := ForkLoop(s.areas);
      spaces := spaces[p := Space(parent, map[], s.startBrk, s.brk)] + [Space(child, map[], s.startBrk, s.brk)];
    }

    // ----- Access -----

    /** pframe_lookup */
    method LookupPage(o: nat, n: nat, write: bool, junk: Page) returns (frame: Option<nat>)
      requires Inv(St()) && Live(heap, o)
      modifies this`heap
      ensures Found(heap, frame) == if write then LookupWrite(old(heap), o, n) else LookupRead(old(heap), o, n)
      ensures frame.None? ==> heap == old(heap)
    {
      if write {
        SourceIs(heap, o, n);
        frame := LookupForWrite(o, n, junk, Refs(St()));
      } else {
        frame := LookupForRead(o, n, junk, Refs(St()));
      }
    }

    /** handle_pagefault: the process goes on if and only if the page is mapped, can be brought in and has
        the permission for each kind of access asked for; otherwise it ends. */
    method HandleFault(p: nat, v: nat, write: bool, exec: bool, junk: Page)
      requires Inv(St()) && p < |spaces|
      modifies this`heap, this`spaces
      ensures St() == Fault(old(St()), p, v, write, exec) && |spaces| == old(|spaces|)
      ensures if old(View(St(), p, v)).Some? && old(AtPage(St(), p, v)).Some? &&
                 (write ==> old(AtPage(St(), p, v)).value.prot.write) &&
                 (exec ==> old(AtPage(St(), p, v)).value.prot.exec) &&
                 (!write && !exec ==> old(AtPage(St(), p, v)).value.prot.read)
              then Resumed(old(St()), St(), p, v, write)
              else spaces[p].areas == [] && spaces[p].ptes == map[]
    {
      hide Exit, LookupRead, LookupWrite, Inv, Resumed, View;
      FaultOutcome(St(), p, v, write, exec);
      var i := Lookup(spaces[p].areas, v);
      if i.None? {
        Destroy(p);
        return;
      }
      var a := spaces[p].areas[i.value];
      if (write && !a.prot.write) || (!(write || exec) && !a.prot.read) || (exec && !a.prot.exec) {
        Destroy(p);
        return;
      }
      MappedLive(St(), p, v);
      var n := v - a.start + a.off;
      var frame := LookupPage(a.obj, n, write, junk);
      if frame.None? {
        Destroy(p);
        return;
      }
      var s := spaces[p];
      spaces := spaces[p := Space(s.areas, s.ptes[v := Pte(frame.value, n, write)], s.startBrk, s.brk)];
    }

    /** One turn of vmmap_read. */
    method ReadPage(p: nat, v: nat, junk: Page) returns (c: Page)
      requires Inv(St()) && View(St(), p, v).Some?
      modifies this`heap
      ensures St() == KernelRead(old(St()), p, v) && Some(c) == View(old(St()), p, v)
    {
      hide Inv, Valid, LookupRead, Find, KernelRead, View;
      PageRead(St(), p, v);
      var i := Lookup(spaces[p].areas, v);
      var a := spaces[p].areas[i.value];
      var n := v - a.start + a.off;
      var frame := LookupForRead(a.obj, n, junk, Refs(St()));
      c := heap[frame.value].pages[n];
    }

    /** One turn of vmmap_write. */
    method WritePage(p: nat, v: nat, at: nat, bytes: seq<Byte>, junk: Page)
      requires Inv(St()) && View(St(), p, v).Some? && at + |bytes| <= PAGE_SIZE
      modifies this`heap
      ensures St() == KernelWrite(old(St()), p, v, at, bytes)
    {
      hide Inv, Valid, LookupWrite, Find, KernelWrite, View, StorePage, Splice;
      PageWrite(St(), p, v, at, bytes);
      var i := Lookup(spaces[p].areas, v);
      var a := spaces[p].areas[i.value];
      var n := v - a.start + a.off;
      var frame := LookupForWrite(a.obj, n, junk, Refs(St()));
      heap := StorePage(heap, a.obj, n, Splice(heap[a.obj].pages[n], at, bytes));
    }

    /** vmmap_read: what it copies. The end is a 32-bit address, so a range that wraps round copies nothing.
        The state must represent a flat state f, as every state of a run does. */
    method ReadMem(p: nat, addr: nat, count: nat, junk: Page, ghost f: FState) returns (buf: seq<Byte>)
      requires addr < WORD && count < WORD
      requires Inv(St()) && Sim(St(), f) && Readable(St(), p, addr, Covered(addr, count))
      modifies this`heap
      ensures St() == ReadBytes(old(St()), p, addr, Covered(addr, count)).state
      ensures buf == ReadBytes(old(St()), p, addr, Covered(addr, count)).bytes
    {
      hide Inv, Sim, Readable, View, KernelRead, ReadBytes;
      buf := [];
      var cur, end := addr, (addr + count) % WORD;
      CoveredIs(addr, count);
      ghost var len := Covered(addr, count);
      ReadNone(St(), p, addr, len);
      while end > cur
        invariant cur == addr + |buf| <= addr + len && |buf| <= len && (len > 0 ==> end == addr + len) &&
                  end <= addr + len
        invariant spaces == old(spaces) && files == old(files)
        invariant Inv(St()) && Sim(St(), f) && Readable(St(), p, cur, addr + len - cur)
        invariant ReadSoFar(old(St()), p, addr, len, St(), cur, buf)
        invariant len == 0 ==> end <= cur
      {
        var n, at := Min(count - (cur - addr), PAGE_SIZE - cur % PAGE_SIZE), cur % PAGE_SIZE;
        ghost var k := St();
        ChunkPages(cur, end - cur);
        ReadableAt(k, p, cur, end - cur, cur / PAGE_SIZE);
        ReadableAfterRead(k, f, p, cur, end - cur);
        KernelReadInv(k, p, cur / PAGE_SIZE);
        KernelReadSim(k, f, p, cur / PAGE_SIZE);
        ReadTurn(old(St()), p, addr, len, k, cur, buf);
        var c := ReadPage(p, cur / PAGE_SIZE, junk);
        buf := buf + c[at..at + n];
        cur := cur + n;
      }
      ReadDone(old(St()), p, addr, len, St(), buf);
    }

    /** vmmap_write, with the same end. */
    method WriteMem(p: nat, addr: nat, buf: seq<Byte>, junk: Page, ghost f: FState)
      requires addr < WORD && |buf| < WORD
      requires Inv(St()) && Sim(St(), f) && Readable(St(), p, addr, Covered(addr, |buf|))
      modifies this`heap
      ensures St() == WriteBytes(old(St()), p, addr, buf[..Covered(addr, |buf|)])
    {
      hide Inv, Sim, Readable, View, KernelWrite, WriteBytes, AtPage;
      var cur, end, written := addr, (addr + |buf|) % WORD, 0;
      CoveredIs(addr, |buf|);
      ghost var g, all := f, buf[..Covered(addr, |buf|)];
      while end > cur
        invariant cur == addr + written && written <= |all| && (|all| > 0 ==> end == addr + |all| && all == buf)
        invariant spaces == old(spaces) && files == old(files) && (|all| == 0 ==> end <= cur)
        invariant Inv(St()) && Sim(St(), g)
        invariant Readable(St(), p, cur, |all| - written)
        invariant WriteBytes(old(St()), p, addr, all) == WriteBytes(St(), p, cur, all[written..])
      {
        var n, at := Min(|buf| - written, PAGE_SIZE - cur % PAGE_SIZE), cur % PAGE_SIZE;
        ghost var k, rest := St(), all[written..];
        ChunkPages(cur, |rest|);
        ReadableAt(k, p, cur, |rest|, cur / PAGE_SIZE);
        RestReadable(k, g, p, cur, rest);
        KernelWriteInv(k, p, cur / PAGE_SIZE, at, rest[..n]);
        KernelWriteSim(k, g, p, cur / PAGE_SIZE, at, rest[..n]);
        WriteTurn(k, p, cur, rest);
        g := Write(g, p, cur / PAGE_SIZE, at, rest[..n]);
        assert buf[written..written + n] == rest[..n] && all[written + n..] == rest[n..];
        WritePage(p, cur / PAGE_SIZE, at, buf[written..written + n], junk);
        written := written + n;
        cur := cur + n;
      }
      assert all[written..] == [];
      WriteNone(St(), p, cur);
    }

    /** do_brk: the break it hands back, or None for -ENOMEM. */
    method DoBrk(p: nat, addr: nat) returns (r: Option<nat>)
      requires Inv(St()) && BrkOk(St(), p, addr)
      modifies this`heap, this`spaces
      ensures r.Some? <==> Brk(old(St()), p, addr).Some?
      ensures St() == if r.Some? then Brk(old(St()), p, addr).value else old(St())
      ensures r.Some? <==>
              addr == 0 ||
              (old(spaces[p].startBrk) <= addr <= USER_HIGH * PAGE_SIZE && HeapFound(old(St()), p) &&
               forall v: nat | HeapArea(old(St()), p).end <= v && v * PAGE_SIZE < addr ::
                 AtPage(old(St()), p, v) == None)
      ensures r.Some? ==> r.value == spaces[p].brk == if addr == 0 then old(spaces[p].brk) else addr
    {
      hide Inv, Unmap, RangeEmpty, Find;
      BrkSucceeds(St(), p, addr);
      SortedOf(St(), p);
      var s := spaces[p];
      if addr == 0 {
        return Some(s.brk);
      }
      if addr < s.startBrk || addr > USER_HIGH * PAGE_SIZE {
        return None;
      }
      var i := Lookup(s.areas, s.startBrk / PAGE_SIZE);
      var prev, cur := s.areas[i.value].end, PageUp(addr);
      if prev < cur {
        var empty := IsRangeEmpty(s.areas, prev, cur - prev);
        if !empty {
          return None;
        }
        spaces := spaces[p := Space(s.areas[i.value := s.areas[i.value].(end := cur)], s.ptes, s.startBrk, s.brk)];
      } else if prev > cur {
        ghost var k := St();
        Remove(p, cur, prev - cur);
        UnmapBreaks(k, p, cur, prev);
      }
      spaces := spaces[p := Space(spaces[p].areas, spaces[p].ptes, s.startBrk, addr)];
      r := Some(spaces[p].brk);
    }

    // ----- Copying between kernel and user memory -----

    /** copy_from_user: None stands for -EFAULT, otherwise these are the bytes copied, all of them or, when
        the range wraps round, none. */
    method CopyFromUser(p: nat, addr: nat, n: nat, junk: Page, ghost f: FState) returns (r: Option<seq<Byte>>)
      requires Inv(St()) && Sim(St(), f) && p < |spaces| && addr < WORD && n < WORD
      requires Showable(St(), p)
      modifies this`heap
      ensures r.Some? <==> Checked(old(spaces[p].areas), addr, n, READ)
      ensures r.Some? ==> |r.value| == Covered(addr, n)
      ensures addr + n < WORD ==>
                (r.Some? <==> forall a: nat | addr <= a <= addr + n :: MayRead(old(spaces[p].areas), a))
      ensures r.Some? ==> forall i | 0 <= i < |r.value| :: Some(r.value[i]) == ByteAt(old(St()), p, addr + i)
      ensures addr + n >= WORD ==> St() == old(St())
    {
      hide Inv, Sim, View, Readable, Checked, Showable, ByteAt, ReadBytes;
      if addr + n < WORD { MayReadAll(spaces[p].areas, addr, n); }
      var ok := RangePerm(spaces[p].areas, addr, n, READ);
      if !ok {
        return None;
      }
      ghost var k, len := St(), Covered(addr, n);
      CheckedReadable(k, p, addr, n, READ);
      ReadNone(k, p, addr, len);
      var buf := ReadMem(p, addr, n, junk, f);
      ReadIsMemory(k, f, p, addr, len, 0);
      forall i | 0 <= i < len
        ensures Some(buf[i]) == ByteAt(k, p, addr + i)
      {
        ReadIsMemory(k, f, p, addr, len, i);
      }
      r := Some(buf);
    }

    /** copy_to_user: false stands for -EFAULT; otherwise all bytes are written or, when the range wraps
        round, none. */
    method CopyToUser(p: nat, addr: nat, buf: seq<Byte>, junk: Page, ghost f: FState) returns (ok: bool)
      requires Inv(St()) && Sim(St(), f) && p < |spaces| && addr < WORD && |buf| < WORD
      requires Showable(St(), p)
      modifies this`heap
      ensures ok <==> Checked(old(spaces[p].areas), addr, |buf|, WRITE)
      ensures addr + |buf| < WORD ==>
                (ok <==> forall a: nat | addr <= a <= addr + |buf| :: MayWrite(old(spaces[p].areas), a))
      ensures St() == if ok then WriteBytes(old(St()), p, addr, buf[..Covered(addr, |buf|)]) else old(St())
      ensures ok && addr + |buf| < WORD && NoAlias(old(St()), p, addr, |buf|) ==>
                forall i | 0 <= i < |buf| :: ByteAt(St(), p, addr + i) == Some(buf[i])
      ensures addr + |buf| >= WORD ==> St() == old(St())
    {
      hide Inv, Sim, View, NoAlias, Readable, Checked, Showable, ByteAt;
      if addr + |buf| < WORD { MayWriteAll(spaces[p].areas, addr, |buf|); }
      ok := RangePerm(spaces[p].areas, addr, |buf|, WRITE);
      if ok {
        CheckedReadable(St(), p, addr, |buf|, WRITE);
        ghost var k := St();
        WriteMem(p, addr, buf, junk, f);
        assert buf[..0] == [];
        assert addr + |buf| < WORD ==> buf[..Covered(addr, |buf|)] == buf;
        hide WriteBytes;
        forall i | 0 <= i < |buf| && addr + |buf| < WORD && NoAlias(k, p, addr, |buf|)
          ensures ByteAt(St(), p, addr + i) == Some(buf[i])
        {
          WriteIsSeen(k, f, p, addr, buf, p, addr + i);
        }
      }
    }
  }

  /** How much of a range vmmap_read and vmmap_write go through: all of it, or nothing if it wraps round. */
  function Covered(addr: nat, n: nat): nat {
    if addr + n < WORD then n else 0
  }

  lemma CoveredIs(addr: nat, n: nat)
    requires addr < WORD && n < WORD
    ensures addr + n < WORD ==> (addr + n) % WORD == addr + Covered(addr, n)
    ensures addr + n >= WORD ==> (addr + n) % WORD < addr && Covered(addr, n) == 0
  {
    if addr + n >= WORD { assert (addr + n) % WORD == addr + n - WORD; }
  }

  lemma WriteNone(k: State, p: nat, addr: nat)
    ensures WriteBytes(k, p, addr, []) == k
  {
  }

  /** What one turn of vmmap_write comes to. */
  lemma WriteTurn(k: State, p: nat, cur: nat, rest: seq<Byte>)
    requires rest != []
    ensures var n := Chunk(cur, |rest|);
            && cur % PAGE_SIZE + n <= PAGE_SIZE && n <= |rest|
            && WriteBytes(k, p, cur, rest) ==
               WriteBytes(KernelWrite(k, p, cur / PAGE_SIZE, cur % PAGE_SIZE, rest[..n]), p, cur + n, rest[n..])
  {
  }

  lemma ReadNone(k: State, p: nat, addr: nat, n: nat)
    ensures n == 0 ==> ReadBytes(k, p, addr, n) == ReadResult(k, [])
    ensures ReadSoFar(k, p, addr, n, k, addr, [])
  {
    var r := ReadBytes(k, p, addr, n);
    assert [] + r.bytes == r.bytes;
  }

  /** What one turn of vmmap_read comes to. */
  lemma PageRead(k: State, p: nat, v: nat)
    requires Inv(k) && View(k, p, v).Some?
    ensures p < |k.spaces| && Find(k.spaces[p].areas, v).Some?
    ensures var a := k.spaces[p].areas[Find(k.spaces[p].areas, v).value];
            var n := v - a.start + a.off;
            var f := LookupRead(k.heap, a.obj, n);
            && Valid(k.heap, Refs(k)) && Live(k.heap, a.obj) && KernelRead(k, p, v) == State(f.heap, k.spaces, k.files)
            && f.frame.Some? && Live(f.heap, f.frame.value) && n in f.heap[f.frame.value].pages
            && View(k, p, v) == Some(f.heap[f.frame.value].pages[n])
  {
    var m := AtPage(k, p, v).value;
    MappedLive(k, p, v);
    LookupReadKeeps(k.heap, m.obj, m.page, Refs(k));
  }

  /** What one turn of vmmap_write comes to. */
  lemma PageWrite(k: State, p: nat, v: nat, at: nat, bytes: seq<Byte>)
    requires Inv(k) && View(k, p, v).Some? && at + |bytes| <= PAGE_SIZE
    ensures p < |k.spaces| && Find(k.spaces[p].areas, v).Some?
    ensures var a := k.spaces[p].areas[Find(k.spaces[p].areas, v).value];
            var n := v - a.start + a.off;
            var f := LookupWrite(k.heap, a.obj, n);
            && Valid(k.heap, Refs(k)) && Live(k.heap, a.obj) && Live(f.heap, a.obj) && n in f.heap[a.obj].pages
            && KernelWrite(k, p, v, at, bytes) ==
               State(StorePage(f.heap, a.obj, n, Splice(f.heap[a.obj].pages[n], at, bytes)), k.spaces, k.files)
  {
    var m := AtPage(k, p, v).value;
    MappedLive(k, p, v);
    LookupWriteKeeps(k.heap, m.obj, m.page, Refs(k));
    hide LookupWrite, Inv, Valid, SameView;
  }

  lemma UnmapBreaks(k: State, p: nat, lo: nat, hi: nat)
    requires p < |k.spaces| && lo <= hi
    ensures var j := Unmap(k, p, lo, hi);
            |j.spaces| == |k.spaces| && j.spaces[p].startBrk == k.spaces[p].startBrk && j.files == k.files
  {
  }

  lemma RoomForFile(k: State, p: nat, r: Request)
    requires Inv(k) && MapOk(k, p, r) && Target(k, p, r).Some?
    ensures p < |k.spaces|
    ensures var j := Cleared(k, p, Target(k, p, r).value, r);
            p < |j.spaces| && (r.file.Some? ==> IsFile(j.heap, r.file.value))
  {
    hide Inv, Unmap, RangeEmpty;
    ClearedRoom(k, p, r);
  }

  /** What vmmap_read still has to read completes what is in the buffer. */
  ghost predicate ReadSoFar(k0: State, p: nat, addr: nat, count: nat, k: State, cur: nat, buf: seq<Byte>) {
    && addr <= cur <= addr + count
    && var r := ReadBytes(k, p, cur, addr + count - cur);
       ReadBytes(k0, p, addr, count) == ReadResult(r.state, buf + r.bytes)
  }

  lemma ReadTurn(k0: State, p: nat, addr: nat, count: nat, k: State, cur: nat, buf: seq<Byte>)
    requires ReadSoFar(k0, p, addr, count, k, cur, buf) && cur < addr + count && View(k, p, cur / PAGE_SIZE).Some?
    ensures var n, at := Chunk(cur, addr + count - cur), cur % PAGE_SIZE;
            ReadSoFar(k0, p, addr, count, KernelRead(k, p, cur / PAGE_SIZE), cur + n,
                      buf + View(k, p, cur / PAGE_SIZE).value[at..at + n])
  {
    hide View, KernelRead;
    var n, at := Chunk(cur, addr + count - cur), cur % PAGE_SIZE;
    ChunkPages(cur, addr + count - cur);
    var c := View(k, p, cur / PAGE_SIZE).value[at..at + n];
    var t := ReadBytes(KernelRead(k, p, cur / PAGE_SIZE), p, cur + n, addr + count - cur - n);
    assert buf + (c + t.bytes) == (buf + c) + t.bytes;
  }

  lemma ReadDone(k0: State, p: nat, addr: nat, count: nat, k: State, buf: seq<Byte>)
    requires ReadSoFar(k0, p, addr, count, k, addr + count, buf)
    ensures ReadBytes(k0, p, addr, count) == ReadResult(k, buf)
  {
    assert buf + [] == buf;
  }

  /** Every mapped page of p can be shown: no file page behind it is missing. */
  ghost predicate Showable(k: State, p: nat) {
    forall v: nat | AtPage(k, p, v).Some? :: View(k, p, v).Some?
  }

  /** A range that passed the check can be read. */
  lemma CheckedReadable(k: State, p: nat, addr: nat, n: nat, perm: Prot)
    requires p < |k.spaces| && Showable(k, p) && Checked(k.spaces[p].areas, addr, n, perm)
    ensures Readable(k, p, addr, Covered(addr, n))
  {
    forall v: nat | PageIn(addr, Covered(addr, n), v)
      ensures View(k, p, v).Some?
    {
      assert (addr + n) % WORD == addr + n;
      assert addr / PAGE_SIZE <= v <= (addr + n) / PAGE_SIZE;
      assert Allows(At(k.spaces[p].areas, v), perm);
      assert AtPage(k, p, v).Some?;
    }
  }

  /** After i turns of the fork loop: the first i areas are forked, the rest of the parent is as it
      was, the rest of the copy has no objects yet. */
  ghost predicate Copied(s: seq<Area>, c: seq<Area>, i: nat, h0: Heap, parent: seq<Area>, child: seq<Area>, h: Heap) {
    && i <= |s| == |c| && (forall j | 0 <= j < |s| :: c[j].start == s[j].start)
    && var f := ForkAll(h0, s[..i]);
       && |f.parent| == |f.child| == i && h == f.heap
       && parent == f.parent + s[i..] && child == f.child + c[i..]
  }

  lemma CopiedStart(s: seq<Area>, c: seq<Area>, h: Heap)
    requires |c| == |s| && forall j | 0 <= j < |s| :: c[j].start == s[j].start
    ensures Copied(s, c, 0, h, s, c, h)
  {
    assert s[..0] == [] && s[0..] == s && c[0..] == c;
  }

  lemma CopiedFinds(s: seq<Area>, c: seq<Area>, i: nat, h0: Heap, parent: seq<Area>, child: seq<Area>, h: Heap)
    requires Sorted(s) && i < |s| && Copied(s, c, i, h0, parent, child, h)
    ensures |parent| == |child| == |s| && child[i].start == s[i].start
    ensures Find(parent, s[i].start) == Some(i) && parent[i] == s[i]
  {
    FoundInParent(h0, s, i);
  }

  lemma SeamUpdate<T>(x: seq<T>, y: seq<T>, i: nat, e: T)
    requires |x| == i < |y|
    ensures (x + y[i..])[i := e] == x + [e] + y[i + 1..]
  {
  }

  lemma CopiedTurn(s: seq<Area>, c: seq<Area>, i: nat, h0: Heap, parent: seq<Area>, child: seq<Area>, h: Heap,
                   pa: Area, ca: Area)
    requires i < |s| && |parent| == |child| == |s| && Copied(s, c, i, h0, parent, child, h)
    requires ForkOne(h, s[i]).parent == [pa] && ForkOne(h, s[i]).child == [ca]
    ensures Copied(s, c, i + 1, h0, parent[i := pa], child[i := ca], ForkOne(h, s[i]).heap)
  {
    hide ForkOne;
    assert s[..i + 1][..i] == s[..i] && s[..i + 1][i] == s[i];
    var f := ForkAll(h0, s[..i]);
    SeamUpdate(f.parent, s, i, pa);
    SeamUpdate(f.child, c, i, ca);
  }

  lemma CopiedEnd(s: seq<Area>, c: seq<Area>, h0: Heap, parent: seq<Area>, child: seq<Area>, h: Heap)
    requires Copied(s, c, |s|, h0, parent, child, h)
    ensures Forked(h, parent, child) == ForkAll(h0, s)
  {
    assert s[..|s|] == s && s[|s|..] == [] && c[|s|..] == [];
  }

  /** The area of the parent that covers the start of its i-th area is the i-th, also while the tops
      of earlier areas have been replaced already. */
  lemma FoundInParent(h: Heap, s: seq<Area>, i: nat)
    requires Sorted(s) && i < |s|
    ensures |ForkAll(h, s[..i]).parent| == i
    ensures Find(ForkAll(h, s[..i]).parent + s[i..], s[i].start) == Some(i)
  {
    assert s[i].start < s[i].end;
    hide Sorted, ForkAll, Find;
    var f := ForkAll(h, s[..i]).parent;
    ForkAllAreas(h, s[..i]);
    var t := f + s[i..];
    forall j | 0 <= j < |s|
      ensures t[j].start == s[j].start && t[j].end == s[j].end
    {
      if j < i {
        assert ForkedArea(h, ForkAll(h, s[..i]).heap, s[..i][j], f[j], ForkAll(h, s[..i]).child[j]);
      }
    }
    SameBoundsSorted(s, t);
    AtIs(t, i, s[i].start);
  }

  /** The references of p's areas are among those that are held. */
  lemma AreasHeld(k: State, p: nat)
    requires Inv(k) && p < |k.spaces|
    ensures Sorted(k.spaces[p].areas) && Valid(k.heap, OtherRefs(k, p) + ObjsOf(k.spaces[p].areas))
  {
    RefsSplit(k, p);
  }

  lemma NoRefs(r: multiset<nat>, t: seq<Area>)
    ensures r + ObjsOf([]) + ObjsOf(t) == r + ObjsOf(t)
  {
  }

  function Upper(a: Area, hi: nat): Area
    requires a.start <= hi
  {
    a.(start := hi, off := a.off + hi - a.start)
  }

  /** After j turns: the first j areas are cut, the rest is as it was, the counts agree. */
  ghost predicate Progress(s: seq<Area>, j: nat, lo: nat, hi: nat, list: seq<Area>, i: nat,
                           h0: Heap, h: Heap, r: multiset<nat>)
  {
    && lo <= hi && j <= |s|
    && list == CutAll(s[..j], lo, hi) + s[j..] && i == |CutAll(s[..j], lo, hi)|
    && h == CutHeap(h0, s[..j], lo, hi) && Valid(h, r + ObjsOf(list))
  }

  lemma ProgressStart(s: seq<Area>, lo: nat, hi: nat, h: Heap, r: multiset<nat>)
    requires lo <= hi && Valid(h, r + ObjsOf(s))
    ensures Progress(s, 0, lo, hi, s, 0, h, h, r)
  {
    assert s[..0] == [] && s[0..] == s;
  }

  lemma ProgressTurn(s: seq<Area>, j: nat, lo: nat, hi: nat, list: seq<Area>, i: nat,
                     h0: Heap, h: Heap, r: multiset<nat>)
    requires Sorted(s) && j < |s| && Progress(s, j, lo, hi, list, i, h0, h, r)
    ensures i < |list| && list[i] == s[j] && ValidArea(s[j]) && list[i + 1..] == s[j + 1..]
    ensures Valid(h, r + ObjsOf(list[..i]) + ObjsOf(s[j + 1..]) + multiset{s[j].obj})
    ensures s[j].start < lo && hi < s[j].end ==>
              Insert(list, Upper(s[j], hi)) == list[..i] + [s[j]] + [Upper(s[j], hi)] + s[j + 1..]
    ensures Progress(s, j + 1, lo, hi, list[..i] + Cut(s[j], lo, hi) + s[j + 1..], i + |Cut(s[j], lo, hi)|,
                     h0, CutEffect(h, s[j], lo, hi), r)
  {
    hide Cut, CutEffect, CutAll, CutHeap, Insert, Valid, ObjsOf;
    var done := CutAll(s[..j], lo, hi);
    AtSeam(done, s, j);
    CutStep(h0, s, j, lo, hi);
    TurnRefs(done, s, j, r);
    TurnValid(h, done, s, j, lo, hi, r);
    if s[j].start < lo && hi < s[j].end { TurnInsert(s, j, lo, hi); }
  }

  lemma ProgressEnd(s: seq<Area>, lo: nat, hi: nat, list: seq<Area>, i: nat, h0: Heap, h: Heap, r: multiset<nat>)
    requires Progress(s, |s|, lo, hi, list, i, h0, h, r)
    ensures lo <= hi && list == CutAll(s, lo, hi) && h == CutHeap(h0, s, lo, hi)
  {
    assert s[..|s|] == s && s[|s|..] == [];
  }

  lemma AtSeam(done: seq<Area>, s: seq<Area>, j: nat)
    requires j < |s|
    ensures (done + s[j..])[..|done|] == done && (done + s[j..])[|done|] == s[j]
    ensures (done + s[j..])[|done| + 1..] == s[j + 1..]
  {
  }

  lemma CutStep(h: Heap, s: seq<Area>, j: nat, lo: nat, hi: nat)
    requires lo <= hi && j < |s|
    ensures CutAll(s[..j + 1], lo, hi) == CutAll(s[..j], lo, hi) + Cut(s[j], lo, hi)
    ensures CutHeap(h, s[..j + 1], lo, hi) == CutEffect(CutHeap(h, s[..j], lo, hi), s[j], lo, hi)
  {
    assert s[..j + 1][..j] == s[..j] && s[..j + 1][j] == s[j];
  }

  lemma TurnRefs(done: seq<Area>, s: seq<Area>, j: nat, r: multiset<nat>)
    requires j < |s|
    ensures r + ObjsOf(done + s[j..]) == r + ObjsOf(done) + ObjsOf(s[j + 1..]) + multiset{s[j].obj}
  {
    var a, t := s[j], s[j + 1..];
    assert s[j..] == [a] + t;
    ObjsOfAppend(done, s[j..]);
    ObjsOfAppend([a], t);
    ObjsOfOne(a);
  }

  /** The counts after one turn of vmmap_remove. */
  lemma TurnValid(h: Heap, done: seq<Area>, s: seq<Area>, j: nat, lo: nat, hi: nat, r: multiset<nat>)
    requires Sorted(s) && j < |s| && lo <= hi && Valid(h, r + ObjsOf(done + s[j..]))
    ensures Valid(CutEffect(h, s[j], lo, hi), r + ObjsOf(done + Cut(s[j], lo, hi) + s[j + 1..]))
  {
    var a, t, c := s[j], s[j + 1..], Cut(s[j], lo, hi);
    TurnRefs(done, s, j, r);
    CutEffectKeeps(h, a, lo, hi, r + ObjsOf(done) + ObjsOf(t));
    ObjsOfAppend(done + c, t);
    ObjsOfAppend(done, c);
    assert r + ObjsOf(done) + ObjsOf(t) + ObjsOf(c) == r + ObjsOf(done + c + t);
  }

  /** The half split off goes right behind the area it comes from. */
  lemma TurnInsert(s: seq<Area>, j: nat, lo: nat, hi: nat)
    requires Sorted(s) && j < |s| && lo <= hi && s[j].start < lo && hi < s[j].end
    ensures var done := CutAll(s[..j], lo, hi);
            var a := Upper(s[j], hi);
            Insert(done + s[j..], a) == done + [s[j]] + [a] + s[j + 1..]
  {
    var done, a := CutAll(s[..j], lo, hi), Upper(s[j], hi);
    CutAllSorted(s[..j], lo, hi);
    assert forall c | c in done :: c.start < c.end <= s[j].start;
    hide CutAll, Sorted;
    InsertBehind(done, s[j], s[j + 1..], a);
    assert done + s[j..] == done + [s[j]] + s[j + 1..];
  }

  lemma InsertBehind(done: seq<Area>, x: Area, rest: seq<Area>, a: Area)
    requires forall c | c in done :: c.start < a.end
    requires x.start < a.end && (rest != [] ==> a.end <= rest[0].start)
    ensures Insert(done + [x] + rest, a) == done + [x] + [a] + rest
  {
    var list, n := done + [x] + rest, |done| + 1;
    forall i | 0 <= i < n
      ensures list[i].start < a.end
    {
      if i < |done| { assert done[i] in done; }
    }
    assert n < |list| ==> list[n] == rest[0];
    assert InsertPos(list, a) == n;
    assert list[..n] == done + [x] && list[n..] == rest;
  }

  /** A read that starts below o does not notice changes to o. */
  lemma {:induction false} SourceBelow(h: Heap, g: Heap, x: nat, n: nat, o: nat)
    requires x < o < |h| && |g| == |h| && g == h[o := g[o]]
    ensures Source(g, x, n) == Source(h, x, n) && Content(g, x, n) == Content(h, x, n)
    decreases x
  {
    if IsShadow(h, x) && n !in h[x].pages && h[x].kind.shadowed < x {
      SourceBelow(h, g, h[x].kind.shadowed, n, o);
    }
  }

  /** Filling the bottom first or allocating the frame of o first makes no difference. */
  lemma FillCommutes(h: Heap, o: nat, n: nat, junk: Page, b: nat)
    requires Live(h, o) && n !in h[o].pages && b < o
    ensures h[o].pages[n := junk] - {n} == h[o].pages
    ensures Fill(AddPage(h, o, n, junk), b, n)[o] == AddPage(h, o, n, junk)[o]
    ensures forall c: Page :: StorePage(Fill(AddPage(h, o, n, junk), b, n), o, n, c) == AddPage(Fill(h, b, n), o, n, c)
  {
    forall c: Page
      ensures StorePage(Fill(AddPage(h, o, n, junk), b, n), o, n, c) == AddPage(Fill(h, b, n), o, n, c)
    {
      assert h[o].pages[n := junk][n := c] == h[o].pages[n := c];
    }
  }

  lemma UncacheValid(h: Heap, o: nat, n: nat, m: multiset<nat>)
    requires Valid(h, m) && Live(h, o) && n in h[o].pages
    ensures Valid(h[o := Obj(h[o].refs, h[o].pages - {n}, h[o].kind)], m + multiset{o})
  {
    var x := Obj(h[o].refs, h[o].pages - {n}, h[o].kind);
    var g := h[o := x];
    assert |h[o].pages - {n}| == |h[o].pages| - 1 by {
      assert (h[o].pages - {n}).Keys == h[o].pages.Keys - {n};
    }
    forall i: nat
      ensures ExactAt(g, m + multiset{o}, i)
    {
      assert ExactAt(h, m, i);
      PointersUpdate(h, o, x, i);
    }
    forall i: nat | IsShadow(g, i)
      ensures LinkOk(g, i, g[i].kind.shadowed, g[i].kind.bottom)
    {
      assert LinkOk(h, i, h[i].kind.shadowed, h[i].kind.bottom);
    }
  }
}
