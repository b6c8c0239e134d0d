/** The heap of memory objects: shadow chains (kernel/vm/shadow.c) over anonymous
    objects (kernel/vm/anon.c) or file objects, with reference counts that include
    one reference for every resident page (kernel/mm/pframe.c). */
module Objects {
  import opened Wrappers

  const PAGE_SIZE: nat := 4096

  type Byte = x: nat | x < 256
  type Page = p: seq<Byte> | |p| == PAGE_SIZE witness seq(PAGE_SIZE, _ => 0)

  function ZeroPage(): (p: Page)
    ensures forall i | 0 <= i < PAGE_SIZE :: p[i] == 0
  {
    seq(PAGE_SIZE, _ => 0)
  }

  datatype Kind =
    | Anon
    | File(store: map<nat, Page>)
    | Shadow(shadowed: nat, bottom: nat)

  datatype Obj = Free | Obj(refs: nat, pages: map<nat, Page>, kind: Kind)

  /** Objects are named by their position; a freed position is never used again. */
  type Heap = seq<Obj>

  predicate Live(h: Heap, o: nat) {
    o < |h| && h[o].Obj?
  }

  predicate IsShadow(h: Heap, o: nat) {
    Live(h, o) && h[o].kind.Shadow?
  }

  /** mmobj_bottom_obj */
  function BottomOf(h: Heap, o: nat): nat {
    if IsShadow(h, o) then h[o].kind.bottom else o
  }

  /** Chains lead to older objects and end in the recorded bottom object. */
  ghost predicate Linked(h: Heap) {
    forall o: nat | IsShadow(h, o) :: LinkOk(h, o, h[o].kind.shadowed, h[o].kind.bottom)
  }

  predicate LinkOk(h: Heap, o: nat, s: nat, b: nat) {
    s < o && b < o && Live(h, s) && Live(h, b) && !IsShadow(h, b) && BottomOf(h, s) == b
  }

  // ----- Reference counts -----

  /** References x holds on o: one for what it shadows, one for its bottom. */
  function Holds(x: Obj, o: nat): nat {
    if x.Obj? && x.kind.Shadow? then
      (if x.kind.shadowed == o then 1 else 0) + (if x.kind.bottom == o then 1 else 0)
    else 0
  }

  function Pointers(h: Heap, o: nat): nat {
    if h == [] then 0 else Pointers(h[..|h| - 1], o) + Holds(h[|h| - 1], o)
  }

  /** The count of o is exact: outside references + shadows that shadow it + shadows whose bottom
      it is + its resident pages. A live object is referenced, a dead one is not. */
  predicate ExactAt(h: Heap, m: multiset<nat>, o: nat) {
    if Live(h, o) then
      h[o].refs == m[o] + Pointers(h, o) + |h[o].pages| && m[o] + Pointers(h, o) > 0
    else
      m[o] + Pointers(h, o) == 0
  }

  /** Links are sound and all counts are exact, where m is the multiset of references held
      from outside the heap. */
  ghost predicate Valid(h: Heap, m: multiset<nat>) {
    Linked(h) && forall o: nat :: ExactAt(h, m, o)
  }

  lemma {:induction false} PointersUpdate(h: Heap, i: nat, x: Obj, o: nat)
    requires i < |h|
    ensures Pointers(h[i := x], o) + Holds(h[i], o) == Pointers(h, o) + Holds(x, o)
  {
    var n := |h| - 1;
    if i == n {
      assert h[i := x][..n] == h[..n];
    } else {
      assert h[i := x][..n] == h[..n][i := x];
      PointersUpdate(h[..n], i, x, o);
    }
  }

  lemma {:induction false} PointersHas(h: Heap, i: nat, o: nat)
    requires i < |h|
    ensures Holds(h[i], o) <= Pointers(h, o)
  {
    if i < |h| - 1 {
      assert h[..|h| - 1][i] == h[i];
      PointersHas(h[..|h| - 1], i, o);
    }
  }

  // ----- ref and put -----

  function Ref(h: Heap, o: nat): Heap {
    if Live(h, o) then h[o := h[o].(refs := h[o].refs + 1)] else h
  }

  /** shadow_put and anon_put: drop one reference; when only the resident pages still refer
      to the object, drop its pages, let go of what it shadows and of its bottom, and free it. */
  function Put(h: Heap, o: nat): Heap
    decreases o
  {
    if !Live(h, o) || h[o].refs == 0 then h
    else if h[o].refs - 1 != |h[o].pages| then h[o := h[o].(refs := h[o].refs - 1)]
    else if h[o].kind.Shadow? && h[o].kind.shadowed < o && h[o].kind.bottom < o then
      Put(Put(h[o := Free], h[o].kind.shadowed), h[o].kind.bottom)
    else h[o := Free]
  }

  /** h1 differs from h0 only in reference counts and in having freed objects. */
  ghost predicate Shrunk(h0: Heap, h1: Heap) {
    && |h1| == |h0|
    && forall o: nat | Live(h1, o) :: Live(h0, o) && h1[o].pages == h0[o].pages && h1[o].kind == h0[o].kind
  }

  /** Changing a count alone keeps the links. */
  lemma RecountLinked(h: Heap, o: nat, r: nat)
    requires Linked(h) && Live(h, o)
    ensures Linked(h[o := h[o].(refs := r)])
    ensures forall x: nat :: Live(h[o := h[o].(refs := r)], x) == Live(h, x)
    ensures forall x: nat :: Pointers(h[o := h[o].(refs := r)], x) == Pointers(h, x)
  {
    var g := h[o := h[o].(refs := r)];
    forall x: nat
      ensures Pointers(g, x) == Pointers(h, x)
    {
      PointersUpdate(h, o, g[o], x);
    }
    forall x: nat | IsShadow(g, x)
      ensures LinkOk(g, x, g[x].kind.shadowed, g[x].kind.bottom)
    {
      assert LinkOk(h, x, h[x].kind.shadowed, h[x].kind.bottom);
    }
  }

  lemma RefKeeps(h: Heap, o: nat, m: multiset<nat>)
    requires Valid(h, m) && Live(h, o)
    ensures Valid(Ref(h, o), m + multiset{o}) && Shrunk(h, Ref(h, o))
  {
    RecountLinked(h, o, h[o].refs + 1);
    forall x: nat
      ensures ExactAt(Ref(h, o), m + multiset{o}, x)
    {
      assert ExactAt(h, m, x);
    }
  }

  lemma DropOne(h: Heap, o: nat, m: multiset<nat>)
    requires Valid(h, m + multiset{o}) && Live(h, o) && h[o].refs - 1 != |h[o].pages|
    ensures h[o].refs > 0
    ensures Valid(h[o := h[o].(refs := h[o].refs - 1)], m)
  {
    assert ExactAt(h, m + multiset{o}, o);
    RecountLinked(h, o, h[o].refs - 1);
    var g := h[o := h[o].(refs := h[o].refs - 1)];
    forall x: nat
      ensures ExactAt(g, m, x)
    {
      assert ExactAt(h, m + multiset{o}, x);
    }
  }

  /** The references x holds, as a multiset. */
  function Out(x: Obj): multiset<nat> {
    if x.Obj? && x.kind.Shadow? then multiset{x.kind.shadowed, x.kind.bottom} else multiset{}
  }

  /** Nothing refers to an object whose last reference is being dropped, so freeing it leaves
      no dangling link; the references it held become outside references to drop next. */
  lemma FreeOne(h: Heap, o: nat, m: multiset<nat>)
    requires Valid(h, m + multiset{o}) && Live(h, o) && h[o].refs - 1 == |h[o].pages|
    ensures Valid(h[o := Free], m + Out(h[o]))
  {
    var g := h[o := Free];
    assert ExactAt(h, m + multiset{o}, o);
    forall x: nat
      ensures ExactAt(g, m + Out(h[o]), x)
    {
      assert ExactAt(h, m + multiset{o}, x);
      PointersUpdate(h, o, Free, x);
      PointersHas(h, o, x);
      assert Out(h[o])[x] == Holds(h[o], x);
    }
    forall x: nat | IsShadow(g, x)
      ensures LinkOk(g, x, g[x].kind.shadowed, g[x].kind.bottom)
    {
      PointersHas(h, x, o);
      assert LinkOk(h, x, h[x].kind.shadowed, h[x].kind.bottom);
    }
  }

  /** Dropping an outside reference keeps every count exact, however far the release cascades,
      and changes nothing of the objects that survive. */
  lemma {:induction false} PutKeeps(h: Heap, o: nat, m: multiset<nat>)
    requires Valid(h, m + multiset{o})
    ensures Valid(Put(h, o), m)
    ensures Shrunk(h, Put(h, o))
    decreases o
  {
    assert ExactAt(h, m + multiset{o}, o);
    if h[o].refs - 1 != |h[o].pages| {
      DropOne(h, o, m);
    } else {
      FreeOne(h, o, m);
      var g := h[o := Free];
      if h[o].kind.Shadow? {
        var s, b := h[o].kind.shadowed, h[o].kind.bottom;
        assert LinkOk(h, o, s, b);
        assert m + Out(h[o]) == m + multiset{b} + multiset{s};
        PutKeeps(g, s, m + multiset{b});
        PutKeeps(Put(g, s), b, m);
      } else {
        assert m + Out(h[o]) == m;
      }
    }
  }
}

/** Which objects stay allocated: exactly those some holder can still reach. */
module Reachability {
  import opened Objects

  /** o is on the chain that starts at r. */
  predicate Reaches(h: Heap, r: nat, o: nat)
    decreases r
  {
    r == o || (IsShadow(h, r) && h[r].kind.shadowed < r && Reaches(h, h[r].kind.shadowed, o))
  }

  ghost predicate Held(h: Heap, m: multiset<nat>, o: nat) {
    exists r: nat :: r in m && Reaches(h, r, o)
  }

  lemma {:induction false} ReachesOn(h: Heap, r: nat, x: nat, o: nat)
    requires Reaches(h, r, x) && Reaches(h, x, o)
    ensures Reaches(h, r, o)
    decreases r
  {
    if r != x {
      ReachesOn(h, h[r].kind.shadowed, x, o);
    }
  }

  lemma {:induction false} ReachesBottom(h: Heap, x: nat)
    requires Linked(h) && Live(h, x)
    ensures Reaches(h, x, BottomOf(h, x))
    decreases x
  {
    if IsShadow(h, x) {
      assert LinkOk(h, x, h[x].kind.shadowed, h[x].kind.bottom);
      ReachesBottom(h, h[x].kind.shadowed);
    }
  }

  lemma {:induction false} ReachesLive(h: Heap, r: nat, o: nat)
    requires Linked(h) && Live(h, r) && Reaches(h, r, o)
    ensures Live(h, o)
    decreases r
  {
    if r != o {
      assert LinkOk(h, r, h[r].kind.shadowed, h[r].kind.bottom);
      ReachesLive(h, h[r].kind.shadowed, o);
    }
  }

  lemma {:induction false} SomePointer(h: Heap, o: nat) returns (x: nat)
    requires Pointers(h, o) > 0
    ensures x < |h| && Holds(h[x], o) > 0
  {
    var n := |h| - 1;
    if Holds(h[n], o) > 0 {
      x := n;
    } else {
      x := SomePointer(h[..n], o);
    }
  }

  /** Exact counts leave no garbage: every live object is reachable from an outside reference. */
  lemma {:induction false} LiveIsHeld(h: Heap, m: multiset<nat>, o: nat)
    requires Valid(h, m) && Live(h, o)
    ensures Held(h, m, o)
    decreases |h| - o
  {
    assert ExactAt(h, m, o);
    if o in m {
      assert Reaches(h, o, o);
    } else {
      var x := SomePointer(h, o);
      assert LinkOk(h, x, h[x].kind.shadowed, h[x].kind.bottom);
      LiveIsHeld(h, m, x);
      var r: nat :| r in m && Reaches(h, r, x);
      ReachesBottom(h, x);
      assert Reaches(h, h[x].kind.shadowed, h[x].kind.shadowed);
      ReachesOn(h, r, x, o);
    }
  }

  lemma HeldIsLive(h: Heap, m: multiset<nat>, o: nat)
    requires Valid(h, m) && Held(h, m, o)
    ensures Live(h, o)
  {
    var r: nat :| r in m && Reaches(h, r, o);
    assert ExactAt(h, m, r);
    ReachesLive(h, r, o);
  }

  lemma {:induction false} ShrunkReaches(h: Heap, g: Heap, r: nat, o: nat)
    requires Shrunk(h, g) && Linked(g) && Live(g, r)
    ensures Reaches(g, r, o) == Reaches(h, r, o)
    decreases r
  {
    if IsShadow(g, r) {
      assert LinkOk(g, r, g[r].kind.shadowed, g[r].kind.bottom);
      ShrunkReaches(h, g, g[r].kind.shadowed, o);
    }
  }

  /** A put frees exactly the objects that the remaining references m no longer reach. */
  lemma PutFreesUnreachable(h: Heap, o: nat, m: multiset<nat>, x: nat)
    requires Valid(h, m + multiset{o})
    ensures Live(Put(h, o), x) <==> Live(h, x) && Held(h, m, x)
  {
    var g := Put(h, o);
    PutKeeps(h, o, m);
    if Live(g, x) {
      LiveIsHeld(g, m, x);
      var r: nat :| r in m && Reaches(g, r, x);
      assert ExactAt(g, m, r);
      ShrunkReaches(h, g, r, x);
    }
    if Held(h, m, x) {
      var r: nat :| r in m && Reaches(h, r, x);
      assert ExactAt(g, m, r);
      ShrunkReaches(h, g, r, x);
      HeldIsLive(g, m, x);
    }
  }
}
