/** Kernel reads and writes of byte ranges, across pages and areas. */
module Bytes {
  import opened Wrappers
  import opened Areas
  import opened Objects
  import opened Overlay
  import opened Kernel
  import opened Flat
  import opened Access
  import opened Creation
  import opened Representation
  import opened Runs
  import opened Theorems

  function Min(a: nat, b: nat): nat {
    if a < b then a else b
  }

  /** Bytes handled in one turn: up to the end of the page. */
  function Chunk(addr: nat, n: nat): nat {
    Min(n, PAGE_SIZE - addr % PAGE_SIZE)
  }

  /** vmmap_write */
  function WriteBytes(k: State, p: nat, addr: nat, bytes: seq<Byte>): State
    decreases |bytes|
  {
    if bytes == [] then k
    else
      var n := Chunk(addr, |bytes|);
      WriteBytes(KernelWrite(k, p, addr / PAGE_SIZE, addr % PAGE_SIZE, bytes[..n]), p, addr + n, bytes[n..])
  }

  datatype ReadResult = ReadResult(state: State, bytes: seq<Byte>)

  /** vmmap_read; a page that cannot be shown contributes nothing. */
  function ReadBytes(k: State, p: nat, addr: nat, count: nat): ReadResult
    decreases count
  {
    if count == 0 then ReadResult(k, [])
    else
      var n, at := Chunk(addr, count), addr % PAGE_SIZE;
      var c := View(k, p, addr / PAGE_SIZE);
      var r := ReadBytes(KernelRead(k, p, addr / PAGE_SIZE), p, addr + n, count - n);
      ReadResult(r.state, (if c.Some? then c.value[at..at + n] else []) + r.bytes)
  }

  /** The byte a process sees at an address. */
  function ByteAt(k: State, p: nat, a: nat): Option<Byte> {
    match View(k, p, a / PAGE_SIZE)
    case None => None
    case Some(c) => Some(c[a % PAGE_SIZE])
  }

  /** Whether page v has bytes in [addr, addr + n). */
  predicate PageIn(addr: nat, n: nat, v: nat) {
    n > 0 && addr / PAGE_SIZE <= v <= (addr + n - 1) / PAGE_SIZE
  }

  /** All pages of the range are mapped and can be shown. */
  ghost predicate Readable(k: State, p: nat, addr: nat, n: nat) {
    forall v: nat | PageIn(addr, n, v) :: View(k, p, v).Some?
  }

  /** Addresses a and b of p lie in shared pages that show the same page of the same object. */
  predicate SamePlace(k: State, p: nat, a: nat, b: nat) {
    && AtPage(k, p, a / PAGE_SIZE).Some? && AtPage(k, p, b / PAGE_SIZE).Some?
    && var m, m' := AtPage(k, p, a / PAGE_SIZE).value, AtPage(k, p, b / PAGE_SIZE).value;
       m.shared && m'.shared && m.obj == m'.obj && m.page == m'.page
  }

  /** No two addresses of the range are the same byte of the same object. */
  ghost predicate NoAlias(k: State, p: nat, addr: nat, n: nat) {
    forall a: nat, b: nat | addr <= a < b < addr + n && a % PAGE_SIZE == b % PAGE_SIZE :: !SamePlace(k, p, a, b)
  }

  /** Address x of p lies in a shared page, and address a of q in a page with the same cell. */
  predicate Twin(k: State, p: nat, x: nat, q: nat, a: nat) {
    && AtPage(k, p, x / PAGE_SIZE).Some? && AtPage(k, p, x / PAGE_SIZE).value.shared
    && PageOf(k, q, a / PAGE_SIZE).Some? &&
      PageOf(k, q, a / PAGE_SIZE).value.cell == PageOf(k, p, x / PAGE_SIZE).value.cell
  }

  /** No byte of the range is seen at address a of q from another page. */
  ghost predicate Unaliased(k: State, p: nat, addr: nat, n: nat, q: nat, a: nat) {
    forall x: nat | addr <= x < addr + n && x % PAGE_SIZE == a % PAGE_SIZE && !(q == p &&
      x / PAGE_SIZE == a / PAGE_SIZE) ::
      !Twin(k, p, x, q, a)
  }

  // ----- Reading -----

  lemma ReadKeepsViews(k: State, f: FState, p: nat, v: nat, q: nat, w: nat)
    requires Inv(k) && Sim(k, f)
    ensures View(KernelRead(k, p, v), q, w) == View(k, q, w)
  {
    KernelReadInv(k, p, v);
    KernelReadSim(k, f, p, v);
    SimView(k, f, q, w);
    SimView(KernelRead(k, p, v), f, q, w);
  }

  lemma ChunkPages(addr: nat, n: nat)
    requires n > 0
    ensures 0 < Chunk(addr, n) <= n
    ensures PageIn(addr, n, addr / PAGE_SIZE)
    ensures Chunk(addr, n) < n ==> (addr + Chunk(addr, n)) / PAGE_SIZE == addr / PAGE_SIZE + 1
    ensures forall v: nat | PageIn(addr + Chunk(addr, n), n - Chunk(addr, n), v) ::
              PageIn(addr, n, v) && v != addr / PAGE_SIZE
  {
  }

  lemma ChunkByte(addr: nat, n: nat, i: nat)
    requires i < Chunk(addr, n)
    ensures (addr + i) / PAGE_SIZE == addr / PAGE_SIZE && (addr + i) % PAGE_SIZE == addr % PAGE_SIZE + i
  {
  }

  lemma ReadableAfterRead(k: State, f: FState, p: nat, addr: nat, count: nat)
    requires Inv(k) && Sim(k, f) && Readable(k, p, addr, count) && count > 0
    ensures Readable(KernelRead(k, p, addr / PAGE_SIZE), p, addr + Chunk(addr, count), count - Chunk(addr, count))
  {
    hide Inv, Sim, KernelRead, View;
    ChunkPages(addr, count);
    var j := KernelRead(k, p, addr / PAGE_SIZE);
    forall v: nat | PageIn(addr + Chunk(addr, count), count - Chunk(addr, count), v)
      ensures View(j, p, v).Some?
    {
      ReadKeepsViews(k, f, p, addr / PAGE_SIZE, p, v);
    }
  }

  /** A kernel read returns exactly the bytes the process sees. */
  lemma {:induction false} ReadIsMemory(k: State, f: FState, p: nat, addr: nat, count: nat, i: nat)
    requires Inv(k) && Sim(k, f) && Readable(k, p, addr, count)
    ensures |ReadBytes(k, p, addr, count).bytes| == count
    ensures i < count ==> Some(ReadBytes(k, p, addr, count).bytes[i]) == ByteAt(k, p, addr + i)
    decreases count
  {
    hide Inv, Sim, KernelRead, View, Readable;
    if count > 0 {
      var n, v := Chunk(addr, count), addr / PAGE_SIZE;
      var j := KernelRead(k, p, v);
      ChunkPages(addr, count);
      assert View(k, p, v).Some? by { ReadableAt(k, p, addr, count, v); }
      KernelReadInv(k, p, v);
      KernelReadSim(k, f, p, v);
      ReadableAfterRead(k, f, p, addr, count);
      ReadIsMemory(j, f, p, addr + n, count - n, if i >= n then i - n else 0);
      if i < n {
        ChunkByte(addr, count, i);
      } else {
        ReadKeepsViews(k, f, p, v, p, (addr + i) / PAGE_SIZE);
      }
    }
  }

  lemma ReadableAt(k: State, p: nat, addr: nat, n: nat, v: nat)
    requires Readable(k, p, addr, n) && PageIn(addr, n, v)
    ensures View(k, p, v).Some?
  {
  }

  // ----- Writing -----

  /** The cells after a page is written: its own, if it is private; nothing else moves. */
  lemma WriteCells(k: State, f: FState, p: nat, v: nat, at: nat, bytes: seq<Byte>, q: nat, w: nat)
    requires Inv(k) && Sim(k, f) && at + |bytes| <= PAGE_SIZE && View(k, p, v).Some?
    ensures var j := KernelWrite(k, p, v, at, bytes);
            && AtPage(j, q, w) == AtPage(k, q, w)
            && (q == p && w == v && !AtPage(k, p, v).value.shared ==> PageOf(j, q, w).value.cell.Own?)
            && (!(q == p && w == v) || AtPage(k, p, v).value.shared ==> PageOf(j, q, w) == PageOf(k, q, w))
  {
    var j, g := KernelWrite(k, p, v, at, bytes), Write(f, p, v, at, bytes);
    KernelWriteSim(k, f, p, v, at, bytes);
    SimView(k, f, p, v);
    assert FAt(f, p, v) == PageOf(k, p, v) && FAt(f, q, w) == PageOf(k, q, w);
    assert FAt(g, q, w) == PageOf(j, q, w);
    AloneInSim(k, f, p, v, q, w);
    hide Inv, Sim, KernelWrite, View;
    assert AtPage(j, q, w) == AtPage(k, q, w) by { WriteKeepsMap(k, p, v, at, bytes); }
  }

  lemma SharedPage(k: State, f: FState, p: nat, v: nat)
    requires Inv(k) && Sim(k, f) && AtPage(k, p, v).Some? && AtPage(k, p, v).value.shared
    ensures var m := AtPage(k, p, v).value; PageOf(k, p, v) == Some(FPage(m.prot, true, Common(m.obj, m.page)))
  {
    SharedCell(k, f, p, v);
    assert FAt(f, p, v) == PageOf(k, p, v);
  }

  /** What could be shown can still be shown after a page is written. */
  lemma WriteShows(k: State, f: FState, p: nat, v: nat, at: nat, bytes: seq<Byte>, q: nat, w: nat)
    requires Inv(k) && Sim(k, f) && at + |bytes| <= PAGE_SIZE && View(k, p, v).Some? && View(k, q, w).Some?
    ensures View(KernelWrite(k, p, v, at, bytes), q, w).Some?
  {
    WriteSeen(k, f, p, v, at, bytes, q, w);
  }

  /** The rest of the range can be shown after its first page is written. */
  lemma RestReadable(k: State, f: FState, p: nat, addr: nat, bytes: seq<Byte>)
    requires Inv(k) && Sim(k, f) && bytes != [] && Readable(k, p, addr, |bytes|)
    ensures var n := Chunk(addr, |bytes|);
            Readable(KernelWrite(k, p, addr / PAGE_SIZE, addr % PAGE_SIZE, bytes[..n]), p, addr + n, |bytes| - n)
  {
    hide Inv, Sim, View, KernelWrite;
    var n, u := Chunk(addr, |bytes|), addr / PAGE_SIZE;
    ChunkPages(addr, |bytes|);
    assert View(k, p, u).Some?;
    forall v: nat | PageIn(addr + n, |bytes| - n, v)
      ensures View(KernelWrite(k, p, u, addr % PAGE_SIZE, bytes[..n]), p, v).Some?
    {
      WriteShows(k, f, p, u, addr % PAGE_SIZE, bytes[..n], p, v);
    }
  }

  lemma WriteKeepsMap(k: State, p: nat, v: nat, at: nat, bytes: seq<Byte>)
    requires at + |bytes| <= PAGE_SIZE
    ensures KernelWrite(k, p, v, at, bytes).spaces == k.spaces
  {
  }

  lemma RestNoAlias(k: State, p: nat, addr: nat, bytes: seq<Byte>)
    requires bytes != [] && NoAlias(k, p, addr, |bytes|)
    ensures var n := Chunk(addr, |bytes|);
            NoAlias(KernelWrite(k, p, addr / PAGE_SIZE, addr % PAGE_SIZE, bytes[..n]), p, addr + n, |bytes| - n)
  {
    var n := Chunk(addr, |bytes|);
    var j := KernelWrite(k, p, addr / PAGE_SIZE, addr % PAGE_SIZE, bytes[..n]);
    WriteKeepsMap(k, p, addr / PAGE_SIZE, addr % PAGE_SIZE, bytes[..n]);
    hide KernelWrite;
    assert forall a: nat, b: nat :: SamePlace(j, p, a, b) == SamePlace(k, p, a, b);
  }

  lemma RestUnaliased(k: State, f: FState, p: nat, addr: nat, bytes: seq<Byte>, q: nat, a: nat)
    requires Inv(k) && Sim(k, f) && bytes != [] && Readable(k, p, addr, |bytes|) && Unaliased(k, p, addr, |bytes|, q, a)
    ensures var n := Chunk(addr, |bytes|);
            var j := KernelWrite(k, p, addr / PAGE_SIZE, addr % PAGE_SIZE, bytes[..n]);
            Unaliased(j, p, addr + n, |bytes| - n, q, a)
  {
    hide Inv, Sim, View, KernelWrite, PageOf, Unaliased;
    var n, u := Chunk(addr, |bytes|), addr / PAGE_SIZE;
    var j := KernelWrite(k, p, u, addr % PAGE_SIZE, bytes[..n]);
    ChunkPages(addr, |bytes|);
    ReadableAt(k, p, addr, |bytes|, u);
    forall x: nat
      ensures x / PAGE_SIZE != u && Twin(j, p, x, q, a) ==> Twin(k, p, x, q, a)
    {
      if x / PAGE_SIZE != u && Twin(j, p, x, q, a) { TwinBefore(k, f, p, u, addr % PAGE_SIZE, bytes[..n], x, q, a); }
    }
    forall x: nat | addr + n <= x < addr + |bytes|
      ensures x / PAGE_SIZE != u
    {
      BeyondChunk(addr, |bytes|, x);
    }
    UnaliasedFewer(k, j, p, addr, |bytes|, n, q, a);
  }

  lemma BeyondChunk(addr: nat, n: nat, x: nat)
    requires addr + Chunk(addr, n) <= x < addr + n
    ensures x / PAGE_SIZE > addr / PAGE_SIZE
  {
  }

  lemma UnaliasedFewer(k: State, j: State, p: nat, addr: nat, len: nat, n: nat, q: nat, a: nat)
    requires Unaliased(k, p, addr, len, q, a) && n <= len
    requires forall x: nat | addr + n <= x < addr + len && Twin(j, p, x, q, a) :: Twin(k, p, x, q, a)
    ensures Unaliased(j, p, addr + n, len - n, q, a)
  {
    hide Twin;
  }

  /** Writing page u makes no new twins of other pages. */
  lemma TwinBefore(k: State, f: FState, p: nat, u: nat, at: nat, bytes: seq<Byte>, x: nat, q: nat, a: nat)
    requires Inv(k) && Sim(k, f) && at + |bytes| <= PAGE_SIZE && View(k, p, u).Some? && x / PAGE_SIZE != u
    requires Twin(KernelWrite(k, p, u, at, bytes), p, x, q, a)
    ensures Twin(k, p, x, q, a)
  {
    hide Inv, Sim, View, KernelWrite, CellOf, AtPage;
    ViewMapped(k, p, u);
    WriteCells(k, f, p, u, at, bytes, q, a / PAGE_SIZE);
    WriteCells(k, f, p, u, at, bytes, p, x / PAGE_SIZE);
    SharedPage(k, f, p, x / PAGE_SIZE);
  }

  /** A byte just written is not seen from the rest of the range. */
  lemma FirstUnaliased(k: State, f: FState, p: nat, addr: nat, bytes: seq<Byte>, a: nat)
    requires Inv(k) && Sim(k, f) && bytes != [] && Readable(k, p, addr, |bytes|) && NoAlias(k, p, addr, |bytes|)
    requires addr <= a < addr + Chunk(addr, |bytes|)
    ensures var n := Chunk(addr, |bytes|);
            var j := KernelWrite(k, p, addr / PAGE_SIZE, addr % PAGE_SIZE, bytes[..n]);
            Unaliased(j, p, addr + n, |bytes| - n, p, a)
  {
    hide Inv, Sim, View, KernelWrite, CellOf, AtPage, NoAlias, SamePlace;
    var n, u := Chunk(addr, |bytes|), addr / PAGE_SIZE;
    var j := KernelWrite(k, p, u, addr % PAGE_SIZE, bytes[..n]);
    ChunkPages(addr, |bytes|);
    ChunkByte(addr, |bytes|, a - addr);
    ReadableAt(k, p, addr, |bytes|, u);
    forall x: nat | addr + n <= x < addr + |bytes| && x % PAGE_SIZE == a % PAGE_SIZE && x / PAGE_SIZE != a / PAGE_SIZE
      ensures !Twin(j, p, x, p, a)
    {
      NoAliasAt(k, p, addr, |bytes|, a, x);
      if Twin(j, p, x, p, a) {
        TwinOfWritten(k, f, p, u, addr % PAGE_SIZE, bytes[..n], x, a);
      }
    }
  }

  lemma NoAliasAt(k: State, p: nat, addr: nat, n: nat, a: nat, b: nat)
    requires NoAlias(k, p, addr, n) && addr <= a < b < addr + n && a % PAGE_SIZE == b % PAGE_SIZE
    ensures !SamePlace(k, p, a, b)
  {
  }

  /** A twin of the page just written is another shared page with the same page of the same object. */
  lemma TwinOfWritten(k: State, f: FState, p: nat, u: nat, at: nat, bytes: seq<Byte>, x: nat, a: nat)
    requires Inv(k) && Sim(k, f) && at + |bytes| <= PAGE_SIZE && View(k, p, u).Some? &&
             a / PAGE_SIZE == u != x / PAGE_SIZE
    requires Twin(KernelWrite(k, p, u, at, bytes), p, x, p, a)
    ensures SamePlace(k, p, a, x)
  {
    hide Inv, Sim, View, KernelWrite, CellOf, AtPage;
    ViewMapped(k, p, u);
    WriteCells(k, f, p, u, at, bytes, p, u);
    WriteCells(k, f, p, u, at, bytes, p, x / PAGE_SIZE);
    SharedPage(k, f, p, x / PAGE_SIZE);
    if AtPage(k, p, u).value.shared { SharedPage(k, f, p, u); }
  }

  lemma ViewMapped(k: State, p: nat, v: nat)
    requires View(k, p, v).Some?
    ensures AtPage(k, p, v).Some? && PageOf(k, p, v).Some?
  {
  }

  lemma SpliceByte(c: Page, at: nat, bytes: seq<Byte>, i: nat)
    requires at + |bytes| <= PAGE_SIZE && i < PAGE_SIZE
    ensures Splice(c, at, bytes)[i] == if at <= i < at + |bytes| then bytes[i - at] else c[i]
  {
  }

  /** Pages with the same cell show the same. */
  lemma SameCellView(k: State, f: FState, p: nat, v: nat, q: nat, w: nat)
    requires Inv(k) && Sim(k, f) && PageOf(k, p, v).Some? && PageOf(k, q, w).Some?
    requires PageOf(k, p, v).value.cell == PageOf(k, q, w).value.cell
    ensures View(k, p, v) == View(k, q, w)
  {
    SimView(k, f, p, v);
    SimView(k, f, q, w);
    assert FAt(f, p, v) == PageOf(k, p, v) && FAt(f, q, w) == PageOf(k, q, w);
  }

  /** Bytes after the first page of the range is written, at addresses it is not seen through an alias. */
  lemma FirstSeen(k: State, f: FState, p: nat, addr: nat, bytes: seq<Byte>, q: nat, a: nat)
    requires Inv(k) && Sim(k, f) && bytes != [] && Readable(k, p, addr, |bytes|)
    requires (q == p && a / PAGE_SIZE == addr / PAGE_SIZE) || Unaliased(k, p, addr, |bytes|, q, a)
    ensures var n := Chunk(addr, |bytes|);
            var j := KernelWrite(k, p, addr / PAGE_SIZE, addr % PAGE_SIZE, bytes[..n]);
            ByteAt(j, q, a) == if q == p && addr <= a < addr + n then Some(bytes[a - addr]) else ByteAt(k, q, a)
  {
    hide Inv, Sim, View, KernelWrite, Splice, CellOf, PageOf, Unaliased, Readable;
    var n, u, w, at := Chunk(addr, |bytes|), addr / PAGE_SIZE, a / PAGE_SIZE, addr % PAGE_SIZE;
    ChunkPages(addr, |bytes|);
    ReadableAt(k, p, addr, |bytes|, u);
    ViewMapped(k, p, u);
    WriteSeen(k, f, p, u, at, bytes[..n], q, w);
    SpliceByte(View(k, p, u).value, at, bytes[..n], a % PAGE_SIZE);
    if q == p && addr <= a < addr + n {
      ChunkByte(addr, |bytes|, a - addr);
    } else if !(q == p && w == u) && FAt(f, p, u).value.shared && FAt(f, q, w).Some? &&
              FAt(f, q, w).value.cell == FAt(f, p, u).value.cell {
      SharedAt(k, p, u);
      SameCellView(k, f, p, u, q, w);
      if at <= a % PAGE_SIZE < at + n {
        HitsTwin(k, p, addr, |bytes|, q, a);
        assert false;
      }
    }
  }

  lemma SharedAt(k: State, p: nat, v: nat)
    requires PageOf(k, p, v).Some?
    ensures AtPage(k, p, v).Some? && AtPage(k, p, v).value.shared == PageOf(k, p, v).value.shared
  {
  }

  /** A byte offset the first chunk writes belongs to an address of the range. */
  lemma HitsTwin(k: State, p: nat, addr: nat, len: nat, q: nat, a: nat)
    requires Unaliased(k, p, addr, len, q, a) && !(q == p && a / PAGE_SIZE == addr / PAGE_SIZE)
    requires addr % PAGE_SIZE <= a % PAGE_SIZE < addr % PAGE_SIZE + Chunk(addr, len)
    ensures !Twin(k, p, addr, q, a)
  {
    var i := a % PAGE_SIZE - addr % PAGE_SIZE;
    ChunkByte(addr, len, i);
    assert !Twin(k, p, addr + i, q, a);
  }

  /** After a kernel write, the range holds the bytes written, and every byte of every process outside
      the range that is no alias of a byte in it is as before. */
  lemma {:induction false} WriteIsSeen(k: State, f: FState, p: nat, addr: nat, bytes: seq<Byte>, q: nat, a: nat)
    requires Inv(k) && Sim(k, f) && Readable(k, p, addr, |bytes|)
    requires if q == p && addr <= a < addr + |bytes| then NoAlias(k, p, addr, |bytes|) else Unaliased(k, p, addr,
             |bytes|, q, a)
    ensures ByteAt(WriteBytes(k, p, addr, bytes), q, a) ==
            if q == p && addr <= a < addr + |bytes| then Some(bytes[a - addr]) else ByteAt(k, q, a)
    decreases |bytes|
  {
    hide Inv, Sim, View, KernelWrite, ByteAt, Readable, NoAlias, Unaliased;
    if bytes != [] {
      var n, u := Chunk(addr, |bytes|), addr / PAGE_SIZE;
      var j, g := KernelWrite(k, p, u, addr % PAGE_SIZE, bytes[..n]), Write(f, p, u, addr % PAGE_SIZE, bytes[..n]);
      ChunkPages(addr, |bytes|);
      KernelWriteInv(k, p, u, addr % PAGE_SIZE, bytes[..n]);
      KernelWriteSim(k, f, p, u, addr % PAGE_SIZE, bytes[..n]);
      RestReadable(k, f, p, addr, bytes);
      if q == p && addr <= a < addr + |bytes| {
        if a < addr + n {
          ChunkByte(addr, |bytes|, a - addr);
          FirstUnaliased(k, f, p, addr, bytes, a);
          FirstSeen(k, f, p, addr, bytes, q, a);
        } else {
          RestNoAlias(k, p, addr, bytes);
        }
      } else {
        FirstSeen(k, f, p, addr, bytes, q, a);
        RestUnaliased(k, f, p, addr, bytes, q, a);
      }
      WriteIsSeen(j, g, p, addr + n, bytes[n..], q, a);
    }
  }

  /** A kernel write keeps the invariant, the areas, and what can be shown. */
  lemma {:induction false} WriteKeeps(k: State, f: FState, p: nat, addr: nat, bytes: seq<Byte>) returns (g: FState)
    requires Inv(k) && Sim(k, f) && Readable(k, p, addr, |bytes|)
    ensures Inv(WriteBytes(k, p, addr, bytes)) && Sim(WriteBytes(k, p, addr, bytes), g)
    ensures WriteBytes(k, p, addr, bytes).spaces == k.spaces
    decreases |bytes|
  {
    hide Inv, Sim, Readable;
    g := f;
    if bytes != [] {
      var n, u, at := Chunk(addr, |bytes|), addr / PAGE_SIZE, addr % PAGE_SIZE;
      KernelWriteInv(k, p, u, at, bytes[..n]);
      KernelWriteSim(k, f, p, u, at, bytes[..n]);
      WriteKeepsMap(k, p, u, at, bytes[..n]);
      RestReadable(k, f, p, addr, bytes);
      hide KernelWrite;
      g := WriteKeeps(KernelWrite(k, p, u, at, bytes[..n]), Write(f, p, u, at, bytes[..n]), p, addr + n, bytes[n..]);
    }
  }

  lemma {:induction false} StaysShown(k: State, f: FState, p: nat, addr: nat, bytes: seq<Byte>, q: nat, w: nat)
    requires Inv(k) && Sim(k, f) && Readable(k, p, addr, |bytes|) && View(k, q, w).Some?
    ensures View(WriteBytes(k, p, addr, bytes), q, w).Some?
    decreases |bytes|
  {
    hide Inv, Sim, Readable, View, KernelWrite;
    if bytes != [] {
      var n, u, at := Chunk(addr, |bytes|), addr / PAGE_SIZE, addr % PAGE_SIZE;
      ChunkPages(addr, |bytes|);
      ReadableAt(k, p, addr, |bytes|, u);
      WriteShows(k, f, p, u, at, bytes[..n], q, w);
      KernelWriteInv(k, p, u, at, bytes[..n]);
      KernelWriteSim(k, f, p, u, at, bytes[..n]);
      RestReadable(k, f, p, addr, bytes);
      StaysShown(KernelWrite(k, p, u, at, bytes[..n]), Write(f, p, u, at, bytes[..n]), p, addr + n, bytes[n..], q, w);
    }
  }

  /** Reading the range after writing it returns, byte by byte, what is then seen there. */
  lemma ReadBack(k: State, f: FState, p: nat, addr: nat, bytes: seq<Byte>, i: nat)
    requires Inv(k) && Sim(k, f) && Readable(k, p, addr, |bytes|)
    ensures var j := WriteBytes(k, p, addr, bytes);
            var r := ReadBytes(j, p, addr, |bytes|).bytes;
            |r| == |bytes| && (i < |bytes| ==> Some(r[i]) == ByteAt(j, p, addr + i))
  {
    hide Inv, Sim, View, WriteBytes, ReadBytes, ByteAt;
    var j := WriteBytes(k, p, addr, bytes);
    var g := WriteKeeps(k, f, p, addr, bytes);
    forall v: nat | PageIn(addr, |bytes|, v)
      ensures View(j, p, v).Some?
    {
      StaysShown(k, f, p, addr, bytes, p, v);
    }
    ReadIsMemory(j, g, p, addr, |bytes|, i);
  }

  lemma RoundTrip(k: State, f: FState, p: nat, addr: nat, bytes: seq<Byte>)
    requires Inv(k) && Sim(k, f) && Readable(k, p, addr, |bytes|) && NoAlias(k, p, addr, |bytes|)
    ensures ReadBytes(WriteBytes(k, p, addr, bytes), p, addr, |bytes|).bytes == bytes
  {
    hide Inv, Sim, View, WriteBytes, ReadBytes, NoAlias, Readable, ByteAt;
    var r := ReadBytes(WriteBytes(k, p, addr, bytes), p, addr, |bytes|).bytes;
    ReadBack(k, f, p, addr, bytes, 0);
    forall i | 0 <= i < |bytes|
      ensures r[i] == bytes[i]
    {
      ReadBack(k, f, p, addr, bytes, i);
      WriteIsSeen(k, f, p, addr, bytes, p, addr + i);
    }
  }

  /** Zeros, and a one at position i. */
  function OneAt(n: nat, i: nat): (s: seq<Byte>)
    ensures |s| == n && forall j | 0 <= j < n :: s[j] == if j == i then 1 else 0
  {
    seq(n, j => if j == i then 1 else 0)
  }

  /** Two addresses of the range that are the same byte cannot come back different. */
  lemma AliasLoses(k: State, f: FState, p: nat, addr: nat, n: nat, a: nat, b: nat)
    requires Inv(k) && Sim(k, f) && Readable(k, p, addr, n)
    requires addr <= a < b < addr + n && a % PAGE_SIZE == b % PAGE_SIZE && SamePlace(k, p, a, b)
    ensures ReadBytes(WriteBytes(k, p, addr, OneAt(n, b - addr)), p, addr, n).bytes != OneAt(n, b - addr)
  {
    hide Inv, Sim, View, WriteBytes, ReadBytes, Readable, CellOf;
    var bytes := OneAt(n, b - addr);
    var j := WriteBytes(k, p, addr, bytes);
    var g := WriteKeeps(k, f, p, addr, bytes);
    SharedPage(j, g, p, a / PAGE_SIZE);
    SharedPage(j, g, p, b / PAGE_SIZE);
    SameCellView(j, g, p, a / PAGE_SIZE, p, b / PAGE_SIZE);
    ReadBack(k, f, p, addr, bytes, a - addr);
    ReadBack(k, f, p, addr, bytes, b - addr);
  }

  /** In every reachable state, for every range that can be read: whatever is written comes back, across
      any page and area boundaries, if and only if no two addresses of the range are the same byte of
      a shared object. */
  lemma RoundTripExact(stores: seq<map<nat, Page>>, ops: seq<Op>, p: nat, addr: nat, n: nat)
    requires Readable(Reached(stores, ops), p, addr, n)
    ensures (forall bytes: seq<Byte> | |bytes| == n ::
               ReadBytes(WriteBytes(Reached(stores, ops), p, addr, bytes), p, addr, n).bytes == bytes)
            <==> NoAlias(Reached(stores, ops), p, addr, n)
  {
    hide Inv, Sim, View, WriteBytes, ReadBytes, Readable, Reached, SamePlace;
    var k, f := Reached(stores, ops), FlatReached(stores, ops);
    RunRepresents(stores, ops);
    if NoAlias(k, p, addr, n) {
      forall bytes: seq<Byte> | |bytes| == n
        ensures ReadBytes(WriteBytes(k, p, addr, bytes), p, addr, n).bytes == bytes
      {
        RoundTrip(k, f, p, addr, bytes);
      }
    } else {
      var a: nat, b: nat :| addr <= a < b < addr + n && a % PAGE_SIZE == b % PAGE_SIZE && SamePlace(k, p, a, b);
      AliasLoses(k, f, p, addr, n, a, b);
    }
  }

  lemma RunRepresents(stores: seq<map<nat, Page>>, ops: seq<Op>)
    ensures Inv(Reached(stores, ops)) && Sim(Reached(stores, ops), FlatReached(stores, ops))
  {
    RunInv(stores, ops);
    RunRefines(stores, ops);
  }

  // ----- An alias can happen -----

  /** One page of file 0, shared, at page l. */
  function FilePage(l: nat): Request {
    Request(l, 1, 0, Prot(true, true, false), true, Some(0))
  }

  lemma MapFilePage(k: State, l: nat, v: nat)
    requires Inv(k) && |k.spaces| == 1 && IsFile(k.heap, 0) && USER_LOW <= l < USER_HIGH
    requires RangeEmpty(k.spaces[0].areas, l, l + 1)
    ensures var j := Mmap(k, 0, FilePage(l));
            && MapOk(k, 0, FilePage(l)) && Inv(j) && |j.spaces| == 1 && IsFile(j.heap, 0) &&
              j.heap[0].kind == k.heap[0].kind
            && AtPage(j, 0, v) == if v == l then Some(Mapping(0, 0, Prot(true, true, false), true)) else AtPage(k, 0, v)
  {
    MmapInv(k, 0, FilePage(l));
    MmapAt(k, 0, FilePage(l), l, 0, v);
  }

  /** Both pages of the range show page 0 of file 0. */
  lemma TwiceAliased(k: State)
    requires AtPage(k, 0, USER_LOW) == AtPage(k, 0, USER_LOW + 1) == Some(Mapping(0, 0, Prot(true, true, false), true))
    requires IsFile(k.heap, 0) && 0 in k.heap[0].kind.store
    ensures Readable(k, 0, USER_LOW * PAGE_SIZE, 2 * PAGE_SIZE) && !NoAlias(k, 0, USER_LOW * PAGE_SIZE, 2 * PAGE_SIZE)
  {
    hide AtPage;
    assert SamePlace(k, 0, USER_LOW * PAGE_SIZE, (USER_LOW + 1) * PAGE_SIZE);
  }

  lemma MapTwice(k: State)
    requires Inv(k) && |k.spaces| == 1 && k.spaces[0].areas == [] && IsFile(k.heap, 0)
    ensures var a := Mmap(k, 0, FilePage(USER_LOW));
            var b := Mmap(a, 0, FilePage(USER_LOW + 1));
            && MapOk(k, 0, FilePage(USER_LOW)) && MapOk(a, 0, FilePage(USER_LOW + 1)) && |a.spaces| == |b.spaces| == 1
            && IsFile(b.heap, 0) && b.heap[0].kind == k.heap[0].kind
            && AtPage(b, 0, USER_LOW) == AtPage(b, 0, USER_LOW + 1) == Some(Mapping(0, 0, Prot(true, true, false),
              true))
  {
    assert RangeEmpty(k.spaces[0].areas, USER_LOW, USER_LOW + 1);
    hide Inv, Mmap, MapOk;
    var a := Mmap(k, 0, FilePage(USER_LOW));
    MapFilePage(k, USER_LOW, USER_LOW);
    MapFilePage(k, USER_LOW, USER_LOW + 1);
    assert RangeEmpty(a.spaces[0].areas, USER_LOW + 1, USER_LOW + 2);
    MapFilePage(a, USER_LOW + 1, USER_LOW);
    MapFilePage(a, USER_LOW + 1, USER_LOW + 1);
  }

  lemma RunTwo(k: State, a: Op, b: Op)
    requires Enabled(k, a) && Enabled(Step(k, a), b)
    ensures Run(k, [a, b]) == Step(Step(k, a), b)
  {
    hide Step, Enabled;
    assert [a, b][..1] == [a] && [a][..0] == [];
    assert Run(k, []) == k && Run(k, [a]) == Step(k, a);
  }

  /** Map the same page of a file at two neighbouring pages: that range cannot keep what is written to it. */
  lemma AliasExample()
    ensures var stores := [map[0 := ZeroPage()]];
            var ops := [DoMmap(0, FilePage(USER_LOW)), DoMmap(0, FilePage(USER_LOW + 1))];
            var k := Reached(stores, ops);
            Readable(k, 0, USER_LOW * PAGE_SIZE, 2 * PAGE_SIZE) && !NoAlias(k, 0, USER_LOW * PAGE_SIZE, 2 * PAGE_SIZE)
  {
    var stores: seq<map<nat, Page>> := [map[0 := ZeroPage()]];
    var k := Boot(stores);
    BootInv(stores);
    assert k.heap[0] == FileObj(stores[0]);
    hide Inv, Mmap, MapOk, Run, AtPage, NoAlias, Readable, ZeroPage;
    MapTwice(k);
    RunTwo(k, DoMmap(0, FilePage(USER_LOW)), DoMmap(0, FilePage(USER_LOW + 1)));
    TwiceAliased(Reached(stores, [DoMmap(0, FilePage(USER_LOW)), DoMmap(0, FilePage(USER_LOW + 1))]));
  }
}
