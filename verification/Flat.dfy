/** The specification: every process has a plain map from pages to entries. A private area has an
    overlay of its own, the pages it wrote over one common object. There are no chains, no
    reference counts and no page tables here, and nothing is ever freed. */
module Flat {
  import opened Wrappers
  import opened Areas
  import opened Objects
  import opened Kernel

  /** What a page stands for: a private copy, or a page of a common object. */
  datatype Cell = Own(page: Page) | Common(obj: nat, n: nat)

  datatype FPage = FPage(prot: Prot, shared: bool, cell: Cell)

  /** A common object: written pages over the contents of a file, or over zeros. */
  datatype FObj = FObj(written: map<nat, Page>, file: Option<map<nat, Page>>)

  /** The private pages over a common object. */
  datatype Region = Region(base: nat, own: map<nat, Page>)

  /** A page: where its area starts, and page n of a common object, if shared, or else of a region. */
  datatype Entry = Entry(first: nat, prot: Prot, shared: bool, ref: nat, n: nat)

  datatype Proc = Proc(pages: map<nat, Entry>, regions: map<nat, Region>)

  /** Regions from next on are not in use. */
  datatype FState = FState(mem: seq<Proc>, next: nat, common: map<nat, FObj>)

  function FHeld(x: FObj, n: nat): Option<Page> {
    if n in x.written then Some(x.written[n])
    else if x.file.None? then Some(ZeroPage())
    else if n in x.file.value then Some(x.file.value[n])
    else None
  }

  function RegionCell(r: Region, n: nat): Cell {
    if n in r.own then Own(r.own[n]) else Common(r.base, n)
  }

  function EntryCell(x: Proc, e: Entry): Cell {
    if !e.shared && e.ref in x.regions then RegionCell(x.regions[e.ref], e.n) else Common(e.ref, e.n)
  }

  function FAt(f: FState, p: nat, v: nat): Option<FPage> {
    if p < |f.mem| && v in f.mem[p].pages then
      var e := f.mem[p].pages[v];
      Some(FPage(e.prot, e.shared, EntryCell(f.mem[p], e)))
    else None
  }

  function CellContent(common: map<nat, FObj>, c: Cell): Option<Page> {
    match c
    case Own(page) => Some(page)
    case Common(b, n) => if b in common then FHeld(common[b], n) else None
  }

  function FView(f: FState, p: nat, v: nat): Option<Page> {
    match FAt(f, p, v)
    case None => None
    case Some(x) => CellContent(f.common, x.cell)
  }

  datatype FOp =
    | FUnmap(p: nat, lo: nat, hi: nat)
    | FExit(p: nat)
    | FMap(p: nat, l: nat, r: Request, id: nat)
    | FFork(p: nat)
    | FTouch(p: nat, v: nat)
    | FWrite(p: nat, v: nat, at: nat, bytes: seq<Byte>)
    | FGrow(p: nat, v: nat, end: nat)

  predicate FOpOk(f: FState, op: FOp) {
    match op
    case FWrite(p, _, at, bytes) => p < |f.mem| && at + |bytes| <= PAGE_SIZE
    case FMap(p, _, r, id) => p < |f.mem| && (r.file.None? ==> id !in f.common)
    case _ => op.p < |f.mem|
  }

  /** The region behind a private page. */
  predicate HasRegion(f: FState, p: nat, v: nat) {
    p < |f.mem| && v in f.mem[p].pages && !f.mem[p].pages[v].shared && f.mem[p].pages[v].ref in f.mem[p].regions
  }

  /** A private page gets contents of its own. */
  function SetOwn(f: FState, p: nat, v: nat, c: Page): FState
    requires HasRegion(f, p, v)
  {
    var x := f.mem[p];
    var e := x.pages[v];
    var r := x.regions[e.ref];
    FState(f.mem[p := Proc(x.pages, x.regions[e.ref := Region(r.base, r.own[e.n := c])])], f.next, f.common)
  }

  /** A private page gets a copy of what it shows. */
  function Touch(f: FState, p: nat, v: nat): FState {
    if HasRegion(f, p, v) && FView(f, p, v).Some? then SetOwn(f, p, v, FView(f, p, v).value) else f
  }

  /** A write to a private page stays in its region; a write to a shared page goes to the object. */
  function Write(f: FState, p: nat, v: nat, at: nat, bytes: seq<Byte>): FState
    requires at + |bytes| <= PAGE_SIZE
  {
    if FView(f, p, v).None? then f
    else
      var c := Splice(FView(f, p, v).value, at, bytes);
      if HasRegion(f, p, v) then SetOwn(f, p, v, c)
      else
        var e := f.mem[p].pages[v];
        var o := f.common[e.ref];
        FState(f.mem, f.next, f.common[e.ref := FObj(o.written[e.n := c], o.file)])
  }

  /** The common object behind a new mapping. */
  function ObjectFor(r: Request, id: nat): nat {
    if r.file.Some? then r.file.value else id
  }

  function NewPages(l: nat, r: Request, ref: nat): map<nat, Entry> {
    map v: nat | l <= v < l + r.n :: NewEntry(l, r, ref, v)
  }

  function NewEntry(l: nat, r: Request, ref: nat, v: nat): Entry
    requires l <= v
  {
    Entry(l, r.prot, r.shared, ref, v - l + r.off)
  }

  function MapPages(f: FState, p: nat, l: nat, r: Request, id: nat): FState
    requires p < |f.mem|
  {
    var x, b := f.mem[p], ObjectFor(r, id);
    FState(f.mem[p := if r.shared then Proc(x.pages + NewPages(l, r, b), x.regions)
                      else Proc(x.pages + NewPages(l, r, f.next), x.regions[f.next := Region(b, map[])])],
           f.next + 1,
           if r.file.None? then f.common[b := FObj(map[], None)] else f.common)
  }

  function WithFirst(e: Entry, first: nat): Entry {
    Entry(first, e.prot, e.shared, e.ref, e.n)
  }

  /** Pages outside [lo, hi); an area that is cut at hi starts there. */
  function UnmapPages(pages: map<nat, Entry>, lo: nat, hi: nat): map<nat, Entry> {
    map v | v in pages && !(lo <= v < hi) :: WithFirst(pages[v], StartAfter(pages[v].first, hi, v))
  }

  /** A copy of the memory of a process in which every private area has a region of its own. */
  function Copy(x: Proc, next: nat): Proc {
    Proc(map v | v in x.pages :: CopyEntry(x.pages[v], next),
         map g | g in CopyNames(x, next) :: CopyRegion(x, g - next))
  }

  function CopyEntry(e: Entry, next: nat): Entry {
    Entry(e.first, e.prot, e.shared, if e.shared then e.ref else next + e.first, e.n)
  }

  /** One region for every private area, named by where the area starts. */
  function CopyNames(x: Proc, next: nat): set<nat> {
    set v | v in x.pages && x.pages[v].first == v && !x.pages[v].shared :: next + v
  }

  function CopyRegion(x: Proc, v: int): Region {
    if v in x.pages && x.pages[v].ref in x.regions then x.regions[x.pages[v].ref] else Region(0, map[])
  }

  /** The area of page v goes on up to end where nothing is mapped, with the pages that follow. */
  function GrowPages(pages: map<nat, Entry>, v: nat, end: nat): map<nat, Entry> {
    if v in pages then pages + (map w: nat | v < w < end && w !in pages :: Following(pages[v], w - v)) else pages
  }

  function Following(e: Entry, i: nat): Entry {
    Entry(e.first, e.prot, e.shared, e.ref, e.n + i)
  }

  function FStep(f: FState, op: FOp): FState
    requires FOpOk(f, op)
  {
    match op
    case FUnmap(p, lo, hi) =>
      FState(f.mem[p := Proc(UnmapPages(f.mem[p].pages, lo, hi), f.mem[p].regions)], f.next, f.common)
    case FExit(p) => FState(f.mem[p := Proc(map[], map[])], f.next, f.common)
    case FMap(p, l, r, id) => MapPages(f, p, l, r, id)
    case FFork(p) =>
      FState(f.mem[p := Copy(f.mem[p], f.next)] + [Copy(f.mem[p], f.next)], f.next + USER_HIGH, f.common)
    case FTouch(p, v) => Touch(f, p, v)
    case FWrite(p, v, at, bytes) => Write(f, p, v, at, bytes)
    case FGrow(p, v, end) =>
      FState(f.mem[p := Proc(GrowPages(f.mem[p].pages, v, end), f.mem[p].regions)], f.next, f.common)
  }
}

