/** The break: what do_brk does to the list of areas. */
module Breaks {
  import opened Wrappers
  import opened Areas
  import opened Objects
  import opened Kernel
  import opened Access
  import opened Creation

  lemma {:induction false} CutAllAppend(s: seq<Area>, t: seq<Area>, lo: nat, hi: nat)
    requires lo <= hi
    ensures CutAll(s + t, lo, hi) == CutAll(s, lo, hi) + CutAll(t, lo, hi)
  {
    if t == [] {
      assert s + t == s;
    } else {
      assert (s + t)[..|s + t| - 1] == s + t[..|t| - 1];
      CutAllAppend(s, t[..|t| - 1], lo, hi);
    }
  }

  lemma {:induction false} CutAllMisses(s: seq<Area>, lo: nat, hi: nat)
    requires lo <= hi
    requires forall i | 0 <= i < |s| :: s[i].start < s[i].end && (s[i].end <= lo || hi <= s[i].start)
    ensures CutAll(s, lo, hi) == s
  {
    if s != [] {
      CutAllMisses(s[..|s| - 1], lo, hi);
      assert s == s[..|s| - 1] + [s[|s| - 1]];
    }
  }

  lemma CutOneOf(l: seq<Area>, a: Area, r: seq<Area>, lo: nat, hi: nat)
    requires lo <= hi && CutAll(l, lo, hi) == l && CutAll(r, lo, hi) == r
    ensures CutAll(l + [a] + r, lo, hi) == l + Cut(a, lo, hi) + r
  {
    CutAllAppend(l + [a], r, lo, hi);
    assert (l + [a])[..|l|] == l;
  }

  lemma OthersMissed(s: seq<Area>, i: nat, lo: nat)
    requires Sorted(s) && i < |s| && s[i].start <= lo < s[i].end
    ensures CutAll(s[..i], lo, s[i].end) == s[..i]
    ensures CutAll(s[i + 1..], lo, s[i].end) == s[i + 1..]
  {
    CutAllMisses(s[..i], lo, s[i].end);
    CutAllMisses(s[i + 1..], lo, s[i].end);
  }

  /** Cutting the end off one area touches no other. */
  lemma CutTail(s: seq<Area>, i: nat, lo: nat)
    requires Sorted(s) && i < |s| && s[i].start <= lo < s[i].end
    ensures CutAll(s, lo, s[i].end) ==
            if lo == s[i].start then s[..i] + s[i + 1..] else s[i := s[i].(end := lo)]
  {
    hide CutAll;
    assert s == s[..i] + [s[i]] + s[i + 1..];
    OthersMissed(s, i, lo);
    CutOneOf(s[..i], s[i], s[i + 1..], lo, s[i].end);
  }

  /** The index of the area the break belongs to. */
  function HeapIndex(k: State, p: nat): nat
    requires HeapFound(k, p)
  {
    Find(k.spaces[p].areas, k.spaces[p].startBrk / PAGE_SIZE).value
  }

  lemma BreakAboveStart(k: State, p: nat, addr: nat)
    requires HeapFound(k, p) && addr >= k.spaces[p].startBrk
    ensures k.spaces[p].areas[HeapIndex(k, p)].start <= PageUp(addr)
    ensures k.spaces[p].startBrk % PAGE_SIZE != 0 ==> k.spaces[p].areas[HeapIndex(k, p)].start < PageUp(addr)
    ensures k.spaces[p].startBrk / PAGE_SIZE < PageUp(addr) <==>
            !(addr == k.spaces[p].startBrk && addr % PAGE_SIZE == 0)
  {
  }

  /** A successful brk with an address makes the heap area end at the page-rounded break and touches
      no other area; only when that is the very start of the area does the area vanish, which an
      unaligned start of the break rules out. */
  lemma BrkMovesEnd(k: State, p: nat, addr: nat)
    requires Inv(k) && BrkOk(k, p, addr) && addr != 0 && Brk(k, p, addr).Some?
    ensures HeapFound(k, p)
    ensures var s := k.spaces[p].areas;
            var i := HeapIndex(k, p);
            var j := Brk(k, p, addr).value;
            && j.spaces[p].areas == (if PageUp(addr) == s[i].start then s[..i] + s[i + 1..]
                                     else s[i := s[i].(end := PageUp(addr))])
            && j.spaces[p].brk == addr
            && (forall q: nat | q < |k.spaces| && q != p :: j.spaces[q] == k.spaces[q])
            && (k.spaces[p].startBrk % PAGE_SIZE != 0 ==> s[i].start < PageUp(addr) <= USER_HIGH)
  {
    var s := k.spaces[p].areas;
    var i := HeapIndex(k, p);
    BreakAboveStart(k, p, addr);
    if PageUp(addr) < s[i].end {
      CutTail(s, i, PageUp(addr));
    } else if PageUp(addr) == s[i].end {
      assert s[i := s[i].(end := s[i].end)] == s;
    }
  }

  /** What do_brk takes for granted, that the page of the start of the break is mapped, is kept by a
      successful brk if and only if it does not move the break to a page-aligned start. */
  lemma BrkKeepsHeap(k: State, p: nat, addr: nat)
    requires Inv(k) && BrkOk(k, p, addr) && addr != 0 && Brk(k, p, addr).Some?
    ensures HeapFound(Brk(k, p, addr).value, p) <==> !(addr == k.spaces[p].startBrk && addr % PAGE_SIZE == 0)
  {
    var s := k.spaces[p].areas;
    var i, v := HeapIndex(k, p), k.spaces[p].startBrk / PAGE_SIZE;
    BreakAboveStart(k, p, addr);
    SortedOf(k, p);
    hide Inv;
    if s[i].end < PageUp(addr) {
      GrowAreas(s, i, PageUp(addr), v);
    } else if PageUp(addr) < s[i].end {
      CutAllDenotes(s, PageUp(addr), s[i].end, v);
    }
  }
}
