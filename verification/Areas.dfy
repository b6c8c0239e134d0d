/** The address-space map of kernel/vm/vmmap.c: a list of areas, kept sorted by page number. */
module Areas {
  import opened Wrappers

  // First page of user memory, and the page after the last one.
  const USER_LOW: nat := 0x400
  const USER_HIGH: nat := 0xC0000

  datatype Prot = Prot(read: bool, write: bool, exec: bool)

  /** A vmarea: pages [start, end) show the pages of object obj from page off on. */
  datatype Area = Area(start: nat, end: nat, off: nat, prot: Prot, shared: bool, obj: nat)

  /** What one virtual page stands for. */
  datatype Mapping = Mapping(obj: nat, page: nat, prot: Prot, shared: bool)

  predicate Covers(a: Area, v: nat) {
    a.start <= v < a.end
  }

  function MappingOf(a: Area, v: nat): Mapping
    requires a.start <= v
  {
    Mapping(a.obj, v - a.start + a.off, a.prot, a.shared)
  }

  predicate ValidArea(a: Area) {
    USER_LOW <= a.start < a.end <= USER_HIGH
  }

  /** The list invariant: non-empty areas inside user memory, in order, no two overlapping. */
  predicate Sorted(s: seq<Area>) {
    && (forall i | 0 <= i < |s| :: ValidArea(s[i]))
    && (forall i, j | 0 <= i < j < |s| :: s[i].end <= s[j].start)
  }

  /** The first area that covers page v. */
  function Find(s: seq<Area>, v: nat): (r: Option<nat>)
    ensures r.Some? ==> r.value < |s| && Covers(s[r.value], v)
    ensures r.Some? ==> forall i | 0 <= i < r.value :: !Covers(s[i], v)
    ensures r.None? ==> forall i | 0 <= i < |s| :: !Covers(s[i], v)
  {
    if s == [] then None
    else if Covers(s[0], v) then Some(0)
    else
      match Find(s[1..], v)
      case None => assert forall i | 1 <= i < |s| :: s[i] == s[1..][i - 1]; None
      case Some(i) => assert forall j | 1 <= j < |s| :: s[j] == s[1..][j - 1]; Some(i + 1)
  }

  /** The map a list denotes: from page number to (object, object page, protection, sharing). */
  function At(s: seq<Area>, v: nat): Option<Mapping> {
    match Find(s, v)
    case None => None
    case Some(i) => Some(MappingOf(s[i], v))
  }

  /** Where the area that covers page v starts. */
  function StartOf(s: seq<Area>, v: nat): Option<nat> {
    match Find(s, v)
    case None => None
    case Some(i) => Some(s[i].start)
  }

  predicate RangeEmpty(s: seq<Area>, lo: nat, hi: nat) {
    forall v | lo <= v < hi :: At(s, v).None?
  }

  // ----- Facts about the denotation -----

  /** In a sorted list the covering area is unique, so the scan order does not matter. */
  lemma AtIs(s: seq<Area>, i: nat, v: nat)
    requires Sorted(s) && i < |s| && Covers(s[i], v)
    ensures Find(s, v) == Some(i)
    ensures At(s, v) == Some(MappingOf(s[i], v)) && StartOf(s, v) == Some(s[i].start)
  {
    var j := Find(s, v).value;
    assert j == i;
  }

  lemma AtAppend(s: seq<Area>, t: seq<Area>, v: nat)
    ensures At(s + t, v) == if At(s, v).Some? then At(s, v) else At(t, v)
    ensures StartOf(s + t, v) == if At(s, v).Some? then StartOf(s, v) else StartOf(t, v)
  {
    var st := s + t;
    match Find(s, v)
    case Some(i) =>
      assert st[i] == s[i];
      assert forall j | 0 <= j < i :: st[j] == s[j];
    case None =>
      assert forall j | 0 <= j < |s| :: st[j] == s[j];
      assert forall j | 0 <= j < |t| :: st[|s| + j] == t[j];
  }

  // ----- vmmap_insert -----

  /** Position of the first area that starts at or after the end of a. */
  function InsertPos(s: seq<Area>, a: Area): (r: nat)
    ensures r <= |s|
    ensures forall i | 0 <= i < r :: s[i].start < a.end
    ensures r < |s| ==> a.end <= s[r].start
  {
    if s == [] then 0
    else if a.end <= s[0].start then 0
    else
      var r := 1 + InsertPos(s[1..], a);
      assert forall i | 1 <= i < r :: s[i] == s[1..][i - 1];
      r
  }

  function Insert(s: seq<Area>, a: Area): seq<Area> {
    s[..InsertPos(s, a)] + [a] + s[InsertPos(s, a)..]
  }

  predicate Disjoint(s: seq<Area>, a: Area) {
    forall i | 0 <= i < |s| :: s[i].end <= a.start || a.end <= s[i].start
  }

  lemma InsertSorted(s: seq<Area>, a: Area)
    requires Sorted(s) && ValidArea(a) && Disjoint(s, a)
    ensures Sorted(Insert(s, a))
  {
    var i := InsertPos(s, a);
    assert forall j | 0 <= j < i :: s[j].start < a.end && s[j].end <= a.start;
    assert forall j | i <= j < |s| :: a.end <= s[j].start;
    hide InsertPos, Disjoint;
    SortedJoin(s[..i], a, s[i..]);
  }

  lemma SortedJoin(l: seq<Area>, a: Area, r: seq<Area>)
    requires Sorted(l) && ValidArea(a) && Sorted(r)
    requires (forall j | 0 <= j < |l| :: l[j].end <= a.start) && forall j | 0 <= j < |r| :: a.end <= r[j].start
    ensures Sorted(l + [a] + r)
  {
  }

  lemma AtSingle(a: Area, v: nat)
    ensures At([a], v) == if Covers(a, v) then Some(MappingOf(a, v)) else None
    ensures StartOf([a], v) == if Covers(a, v) then Some(a.start) else None
  {
    assert [a][0] == a;
  }

  /** Inserting into free space only adds the pages of the new area. */
  lemma InsertDenotes(s: seq<Area>, a: Area, v: nat)
    requires ValidArea(a) && Disjoint(s, a)
    ensures At(Insert(s, a), v) == if Covers(a, v) then Some(MappingOf(a, v)) else At(s, v)
    ensures StartOf(Insert(s, a), v) == if Covers(a, v) then Some(a.start) else StartOf(s, v)
  {
    var l, r := s[..InsertPos(s, a)], s[InsertPos(s, a)..];
    AtAppend(l + [a], r, v);
    AtAppend(l, [a], v);
    AtSingle(a, v);
    assert s == l + r;
    AtAppend(l, r, v);
    if Covers(a, v) {
      assert Find(l, v).None?;
    }
  }

  lemma EmptyMeansDisjoint(s: seq<Area>, a: Area)
    requires Sorted(s) && ValidArea(a) && RangeEmpty(s, a.start, a.end)
    ensures Disjoint(s, a)
  {
    forall i | 0 <= i < |s|
      ensures s[i].end <= a.start || a.end <= s[i].start
    {
      var v := if s[i].start < a.start then a.start else s[i].start;
      if s[i].end > a.start && a.end > s[i].start {
        assert At(s, v).None?;
        assert Covers(s[i], v);
        assert false;
      }
    }
  }

  // ----- vmmap_remove -----

  /** What is left of one area when the pages [lo, hi) go: the four cases of vmmap_remove. */
  function Cut(a: Area, lo: nat, hi: nat): seq<Area>
    requires lo <= hi
  {
    if a.start < lo && hi < a.end then
      [a.(end := lo), a.(start := hi, off := a.off + hi - a.start)]
    else if a.start < lo < a.end then
      [a.(end := lo)]
    else if lo <= a.start < hi < a.end then
      [a.(start := hi, off := a.off + hi - a.start)]
    else if lo <= a.start && a.end <= hi then
      []
    else
      [a]
  }

  function CutAll(s: seq<Area>, lo: nat, hi: nat): seq<Area>
    requires lo <= hi
  {
    if s == [] then [] else CutAll(s[..|s| - 1], lo, hi) + Cut(s[|s| - 1], lo, hi)
  }

  lemma CutShape(a: Area, lo: nat, hi: nat)
    requires lo <= hi && ValidArea(a)
    ensures Sorted(Cut(a, lo, hi))
    ensures forall c | c in Cut(a, lo, hi) :: a.start <= c.start && c.end <= a.end
  {
  }

  /** The start of an area, seen from its page v, after the pages below hi were cut from it. */
  function StartAfter(start: nat, hi: nat, v: nat): nat {
    if start < hi <= v then hi else start
  }

  lemma CutDenotes(a: Area, lo: nat, hi: nat, v: nat)
    requires lo <= hi && ValidArea(a)
    ensures At(Cut(a, lo, hi), v) == if Covers(a, v) && !(lo <= v < hi) then Some(MappingOf(a, v)) else None
    ensures StartOf(Cut(a, lo, hi), v) ==
            if Covers(a, v) && !(lo <= v < hi) then Some(StartAfter(a.start, hi, v)) else None
  {
    var c := Cut(a, lo, hi);
    if |c| == 2 {
      assert c == [c[0]] + [c[1]];
      AtAppend([c[0]], [c[1]], v);
      AtSingle(c[0], v);
      AtSingle(c[1], v);
    } else if |c| == 1 {
      assert c == [c[0]];
      AtSingle(c[0], v);
    }
  }

  /** The remaining list is sorted and stays below any page the old list stayed below. */
  lemma {:induction false} CutAllSorted(s: seq<Area>, lo: nat, hi: nat)
    requires lo <= hi && Sorted(s)
    ensures Sorted(CutAll(s, lo, hi))
    ensures s == [] ==> CutAll(s, lo, hi) == []
    ensures forall c | c in CutAll(s, lo, hi) :: s != [] && c.end <= s[|s| - 1].end
  {
    if s != [] {
      var t, a := s[..|s| - 1], s[|s| - 1];
      CutAllSorted(t, lo, hi);
      CutShape(a, lo, hi);
      assert forall c | c in CutAll(t, lo, hi) :: c.end <= t[|t| - 1].end <= a.start;
    }
  }

  /** Removal is domain restriction: pages in [lo, hi) go, every other page keeps its mapping. */
  lemma {:induction false} CutAllDenotes(s: seq<Area>, lo: nat, hi: nat, v: nat)
    requires lo <= hi && Sorted(s)
    ensures At(CutAll(s, lo, hi), v) == if lo <= v < hi then None else At(s, v)
    ensures StartOf(CutAll(s, lo, hi), v) ==
            if lo <= v < hi || StartOf(s, v).None? then None else Some(StartAfter(StartOf(s, v).value, hi, v))
  {
    if s != [] {
      var t, a := s[..|s| - 1], s[|s| - 1];
      CutAllDenotes(t, lo, hi, v);
      CutDenotes(a, lo, hi, v);
      AtAppend(CutAll(t, lo, hi), Cut(a, lo, hi), v);
      assert s == t + [a];
      AtAppend(t, [a], v);
      AtSingle(a, v);
    }
  }

  lemma CutAllEmpties(s: seq<Area>, lo: nat, hi: nat)
    requires lo <= hi && Sorted(s)
    ensures RangeEmpty(CutAll(s, lo, hi), lo, hi)
  {
    forall v | lo <= v < hi
      ensures At(CutAll(s, lo, hi), v).None?
    {
      CutAllDenotes(s, lo, hi, v);
    }
  }

  // ----- vmmap_find_range -----

  /** Highest gap of n pages below page top, as the backward scan finds it. */
  function FindBelow(s: seq<Area>, top: nat, n: nat): Option<nat> {
    if s == [] then
      if n <= top - USER_LOW then Some(top - n) else None
    else if n <= top - s[|s| - 1].end then Some(top - n)
    else FindBelow(s[..|s| - 1], s[|s| - 1].start, n)
  }

  function FindRange(s: seq<Area>, n: nat): Option<nat> {
    FindBelow(s, USER_HIGH, n)
  }

  /** Whether b starts a free range of n pages in user memory below top. */
  predicate Fits(s: seq<Area>, top: nat, n: nat, b: nat) {
    USER_LOW <= b && b + n <= top && RangeEmpty(s, b, b + n)
  }

  /** The scan returns the highest fitting start, and nothing exactly when no start fits. */
  lemma {:induction false} FindBelowIsHighest(s: seq<Area>, top: nat, n: nat)
    requires Sorted(s) && USER_LOW <= top
    requires s != [] ==> s[|s| - 1].end <= top
    ensures FindBelow(s, top, n).None? <==> forall b: nat :: !Fits(s, top, n, b)
    ensures FindBelow(s, top, n).Some? ==>
              && Fits(s, top, n, FindBelow(s, top, n).value)
              && forall b: nat | Fits(s, top, n, b) :: b <= FindBelow(s, top, n).value
  {
    if s == [] {
      if n <= top - USER_LOW { assert Fits(s, top, n, top - n); }
    } else {
      var t, a := s[..|s| - 1], s[|s| - 1];
      if n <= top - a.end {
        forall v | top - n <= v < top
          ensures At(s, v).None?
        {
          assert forall i | 0 <= i < |s| :: s[i].end <= a.end;
        }
        assert Fits(s, top, n, top - n);
      } else {
        FindBelowIsHighest(t, a.start, n);
        forall b: nat
          ensures Fits(s, top, n, b) <==> Fits(t, a.start, n, b)
        {
          FitsBelowLast(s, top, n, b);
        }
      }
    }
  }

  lemma FitsBelowLast(s: seq<Area>, top: nat, n: nat, b: nat)
    requires Sorted(s) && s != [] && s[|s| - 1].end <= top < s[|s| - 1].end + n
    ensures Fits(s, top, n, b) <==> Fits(s[..|s| - 1], s[|s| - 1].start, n, b)
  {
    var t, a := s[..|s| - 1], s[|s| - 1];
    assert s == t + [a];
    forall v: nat
      ensures At(s, v) == if At(t, v).Some? then At(t, v) else At([a], v)
    {
      AtAppend(t, [a], v);
    }
    var w := if b < a.start then a.start else b;
    assert At([a], w).Some? <==> Covers(a, w) by { AtSingle(a, w); }
    if Fits(s, top, n, b) {
      assert b <= w < b + n ==> At(s, w).None?;
      forall v | b <= v < b + n ensures At(t, v).None? { assert At(s, v).None?; }
    }
    if Fits(t, a.start, n, b) {
      forall v | b <= v < b + n ensures At(s, v).None? { AtSingle(a, v); assert At(t, v).None?; }
    }
  }
}
