/** What a chain of shadow objects shows: the topmost resident page, else the bottom object. */
module Overlay {
  import opened Wrappers
  import opened Objects

  /** The object a read of page n through o ends at. */
  function Source(h: Heap, o: nat, n: nat): nat
    decreases o
  {
    if IsShadow(h, o) && n !in h[o].pages && h[o].kind.shadowed < o
    then Source(h, h[o].kind.shadowed, n)
    else o
  }

  /** Page n of o itself: resident, or what a fill would bring in. A file page that the file
      does not have cannot be filled. */
  function Held(h: Heap, o: nat, n: nat): Option<Page> {
    if !Live(h, o) then None
    else if n in h[o].pages then Some(h[o].pages[n])
    else
      match h[o].kind
      case Anon => Some(ZeroPage())
      case File(store) => if n in store then Some(store[n]) else None
      case Shadow(_, _) => None
  }

  function Content(h: Heap, o: nat, n: nat): Option<Page> {
    Held(h, Source(h, o, n), n)
  }

  lemma {:induction false} SourceIs(h: Heap, o: nat, n: nat)
    requires Linked(h) && Live(h, o)
    ensures Live(h, Source(h, o, n)) && Source(h, o, n) <= o
    ensures n in h[Source(h, o, n)].pages || Source(h, o, n) == BottomOf(h, o)
    ensures IsShadow(h, Source(h, o, n)) ==> n in h[Source(h, o, n)].pages
    ensures !IsShadow(h, Source(h, o, n)) ==> Source(h, o, n) == BottomOf(h, o)
    decreases o
  {
    if IsShadow(h, o) && n !in h[o].pages {
      var s := h[o].kind.shadowed;
      assert LinkOk(h, o, s, h[o].kind.bottom);
      SourceIs(h, s, n);
    }
  }

  // ----- Pages coming in and changing -----

  /** pframe_alloc followed by a successful fill: one more resident page, one more reference. */
  function AddPage(h: Heap, o: nat, n: nat, c: Page): Heap
    requires Live(h, o)
  {
    h[o := Obj(h[o].refs + 1, h[o].pages[n := c], h[o].kind)]
  }

  function StorePage(h: Heap, o: nat, n: nat, c: Page): Heap
    requires Live(h, o)
  {
    h[o := Obj(h[o].refs, h[o].pages[n := c], h[o].kind)]
  }

  /** pframe_get on a bottom object. */
  function Fill(h: Heap, b: nat, n: nat): Heap {
    if Live(h, b) && n !in h[b].pages && Held(h, b, n).Some? then AddPage(h, b, n, Held(h, b, n).value) else h
  }

  datatype Found = Found(heap: Heap, frame: Option<nat>)

  /** lookuppage without forwrite: the object whose frame is returned. */
  function LookupRead(h: Heap, o: nat, n: nat): Found {
    if Content(h, o, n).None? then Found(h, None)
    else Found(Fill(h, Source(h, o, n), n), Some(Source(h, o, n)))
  }

  /** lookuppage with forwrite: a shadow object gets its own copy of the page. */
  function LookupWrite(h: Heap, o: nat, n: nat): Found {
    if Content(h, o, n).None? then Found(h, None)
    else if !IsShadow(h, o) then Found(Fill(h, o, n), Some(o))
    else if n in h[o].pages then Found(h, Some(o))
    else
      var g := Fill(h, Source(h, o, n), n);
      if Live(g, o) then Found(AddPage(g, o, n, Content(h, o, n).value), Some(o)) else Found(h, None)
  }

  /** Changing the pages of one object, with its count following, keeps a heap valid. */
  lemma RepageValid(h: Heap, o: nat, x: Obj, m: multiset<nat>)
    requires Valid(h, m) && Live(h, o)
    requires x.Obj? && x.kind == h[o].kind && x.refs + |h[o].pages| == h[o].refs + |x.pages|
    ensures Valid(h[o := x], m)
  {
    var g := h[o := x];
    forall i: nat
      ensures ExactAt(g, m, i)
    {
      assert ExactAt(h, m, i);
      PointersUpdate(h, o, x, i);
    }
    forall i: nat | IsShadow(g, i)
      ensures LinkOk(g, i, g[i].kind.shadowed, g[i].kind.bottom)
    {
      assert LinkOk(h, i, h[i].kind.shadowed, h[i].kind.bottom);
    }
  }

  lemma AddPageValid(h: Heap, o: nat, n: nat, c: Page, m: multiset<nat>)
    requires Valid(h, m) && Live(h, o) && n !in h[o].pages
    ensures Valid(AddPage(h, o, n, c), m)
  {
    RepageValid(h, o, AddPage(h, o, n, c)[o], m);
  }

  lemma StorePageValid(h: Heap, o: nat, n: nat, c: Page, m: multiset<nat>)
    requires Valid(h, m) && Live(h, o) && n in h[o].pages
    ensures Valid(StorePage(h, o, n, c), m)
  {
    assert h[o].pages[n := c].Keys == h[o].pages.Keys;
    assert |h[o].pages[n := c]| == |h[o].pages|;
    RepageValid(h, o, StorePage(h, o, n, c)[o], m);
  }

  // ----- What every object shows before and after -----

  /** Surviving objects show what they showed, from the same place. */
  lemma {:induction false} ShrunkShows(h: Heap, g: Heap, o: nat, n: nat)
    requires Shrunk(h, g) && Linked(g) && Live(g, o)
    ensures Source(g, o, n) == Source(h, o, n)
    ensures Held(g, Source(g, o, n), n) == Held(h, Source(h, o, n), n)
    ensures Live(g, Source(g, o, n)) && IsShadow(g, Source(g, o, n)) == IsShadow(h, Source(h, o, n))
    decreases o
  {
    if IsShadow(g, o) && n !in g[o].pages {
      assert LinkOk(g, o, g[o].kind.shadowed, g[o].kind.bottom);
      ShrunkShows(h, g, g[o].kind.shadowed, n);
    }
  }

  /** Making a bottom page resident moves and changes nothing that is shown. */
  lemma {:induction false} FillShows(h: Heap, b: nat, n: nat, o: nat, k: nat)
    requires Live(h, b) && !IsShadow(h, b)
    ensures Source(Fill(h, b, n), o, k) == Source(h, o, k)
    ensures Held(Fill(h, b, n), o, k) == Held(h, o, k)
    ensures IsShadow(Fill(h, b, n), o) == IsShadow(h, o)
    decreases o
  {
    if IsShadow(h, o) && k !in h[o].pages && h[o].kind.shadowed < o {
      FillShows(h, b, n, h[o].kind.shadowed, k);
    }
  }

  /** Copying up the page a read would have returned changes nothing that is shown, through any object. */
  lemma {:induction false} CopyUpShows(h: Heap, s: nat, n: nat, o: nat, k: nat)
    requires Live(h, s) && Content(h, s, n).Some?
    ensures Content(AddPage(h, s, n, Content(h, s, n).value), o, k) == Content(h, o, k)
    decreases o
  {
    if IsShadow(h, o) && k !in h[o].pages && h[o].kind.shadowed < o {
      CopyUpShows(h, s, n, h[o].kind.shadowed, k);
    }
  }

  /** A store into a resident page is seen exactly through the objects whose read ends there. */
  lemma {:induction false} StoreShows(h: Heap, s: nat, n: nat, c: Page, o: nat, k: nat)
    requires Live(h, s) && n in h[s].pages
    ensures Source(StorePage(h, s, n, c), o, k) == Source(h, o, k)
    ensures Content(StorePage(h, s, n, c), o, k) ==
            if Source(h, o, k) == s && k == n then Some(c) else Content(h, o, k)
    decreases o
  {
    if IsShadow(h, o) && k !in h[o].pages && h[o].kind.shadowed < o {
      StoreShows(h, s, n, c, h[o].kind.shadowed, k);
    }
  }

  ghost predicate Unshadowed(h: Heap, s: nat) {
    forall x: nat | IsShadow(h, x) :: h[x].kind.shadowed != s
  }

  /** Nothing else is seen through a top object, so changes to its pages stay with it. */
  lemma {:induction false} TopIsPrivate(h: Heap, s: nat, x: Obj, o: nat, k: nat)
    requires Live(h, s) && Unshadowed(h, s) && o != s
    requires x.Obj? && x.kind == h[s].kind
    ensures Source(h[s := x], o, k) == Source(h, o, k) != s
    ensures Content(h[s := x], o, k) == Content(h, o, k)
    decreases o
  {
    if IsShadow(h, o) && k !in h[o].pages && h[o].kind.shadowed < o {
      TopIsPrivate(h, s, x, h[o].kind.shadowed, k);
    }
  }

  /** Every object shows the same pages in both heaps. */
  ghost predicate SameView(h: Heap, g: Heap) {
    forall x: nat, k: nat :: Content(g, x, k) == Content(h, x, k)
  }

  /** A frame is found exactly when the page can be shown, and it holds the page shown. */
  predicate FoundPage(h: Heap, o: nat, n: nat, f: Found) {
    match f.frame
    case None => Content(h, o, n).None?
    case Some(s) => Live(f.heap, s) && n in f.heap[s].pages && Content(h, o, n) == Some(f.heap[s].pages[n])
  }

  /** A lookup for writing returns a frame of o that holds what a read would have returned,
      keeps all counts exact and changes nothing that is shown. */
  lemma LookupWriteKeeps(h: Heap, o: nat, n: nat, m: multiset<nat>)
    requires Valid(h, m) && Live(h, o)
    ensures Valid(LookupWrite(h, o, n).heap, m)
    ensures FoundPage(h, o, n, LookupWrite(h, o, n))
    ensures LookupWrite(h, o, n).frame in {None, Some(o)}
    ensures SameView(h, LookupWrite(h, o, n).heap)
  {
    SourceIs(h, o, n);
    if Content(h, o, n).Some? {
      var s := Source(h, o, n);
      FillKeeps(h, s, n, m);
      if IsShadow(h, o) && n !in h[o].pages {
        var g := Fill(h, s, n);
        assert Content(g, o, n) == Content(h, o, n);
        AddPageValid(g, o, n, Content(h, o, n).value, m);
        forall x: nat, k: nat
          ensures Content(LookupWrite(h, o, n).heap, x, k) == Content(h, x, k)
        {
          CopyUpShows(g, o, n, x, k);
        }
      }
    }
  }

  lemma FillKeeps(h: Heap, s: nat, n: nat, m: multiset<nat>)
    requires Valid(h, m) && Live(h, s) && Held(h, s, n).Some?
    ensures Valid(Fill(h, s, n), m)
    ensures Live(Fill(h, s, n), s) && n in Fill(h, s, n)[s].pages && Held(h, s, n) == Some(Fill(h, s, n)[s].pages[n])
    ensures forall x: nat, k: nat :: Source(Fill(h, s, n), x, k) == Source(h, x, k)
    ensures SameView(h, Fill(h, s, n))
  {
    if n !in h[s].pages {
      AddPageValid(h, s, n, Held(h, s, n).value, m);
      forall x: nat, k: nat
        ensures Source(Fill(h, s, n), x, k) == Source(h, x, k)
        ensures Content(Fill(h, s, n), x, k) == Content(h, x, k)
      {
        FillShows(h, s, n, x, k);
        FillShows(h, s, n, Source(h, x, k), k);
      }
    }
  }

  /** The same for reading: the frame returned holds the page shown. */
  lemma LookupReadKeeps(h: Heap, o: nat, n: nat, m: multiset<nat>)
    requires Valid(h, m) && Live(h, o)
    ensures Valid(LookupRead(h, o, n).heap, m)
    ensures FoundPage(h, o, n, LookupRead(h, o, n))
    ensures LookupRead(h, o, n).frame in {None, Some(Source(h, o, n))}
    ensures SameView(h, LookupRead(h, o, n).heap)
  {
    SourceIs(h, o, n);
    if Content(h, o, n).Some? {
      FillKeeps(h, Source(h, o, n), n, m);
    }
  }
}
