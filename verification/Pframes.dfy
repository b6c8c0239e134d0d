/** The page-frame cache of kernel/mm/pframe.c: hash chains, the allocated and pinned lists, the
    resident list of each object, and the counters, kept in agreement. */
module Pframes {
  import opened Wrappers
  import opened Words
  import opened Lists

  type Fid = nat

  /** data stands for the contents of the page. */
  datatype PFrame = PFrame(key: Key, pins: nat, dirty: bool, data: nat)

  const ZEROS: nat := 0

  datatype Kind = File | Anon | Shadow

  function Hash(size: nat, k: Key): (b: nat)
    requires size > 0
    ensures b < size
  {
    (k.obj + k.page) % WORD % size
  }

  type Frames = map<Fid, PFrame>

  function InChain(fs: Frames, size: nat, b: nat): set<Fid>
    requires size > 0
  {
    set f | f in fs && Hash(size, fs[f].key) == b
  }

  function Unpinned(fs: Frames): set<Fid> {
    set f | f in fs && fs[f].pins == 0
  }

  function Pinned(fs: Frames): set<Fid> {
    set f | f in fs && fs[f].pins > 0
  }

  function Of(fs: Frames, o: nat): set<Fid> {
    set f | f in fs && fs[f].key.obj == o
  }

  /** Every frame is in the chain of its identity and in no other. */
  ghost predicate ChainsOk(fs: Frames, size: nat, chains: seq<seq<Fid>>) {
    size > 0 && |chains| == size && forall b | 0 <= b < size :: Enum(chains[b], InChain(fs, size, b))
  }

  /** Every frame is in the list of its object, whose counter is the length of the list. */
  ghost predicate ObjectsOk(fs: Frames, res: map<nat, seq<Fid>>, nres: map<nat, int>) {
    && (forall o | o in res :: o in nres && Enum(res[o], Of(fs, o)) && nres[o] == |res[o]|)
    && (forall f | f in fs :: fs[f].key.obj in res)
  }

  /** Every frame is in exactly one of the allocated and pinned lists, by its pin count. */
  ghost predicate QueuesOk(fs: Frames, alloc: seq<Fid>, nalloc: int, pinned: seq<Fid>, npinned: int) {
    Enum(alloc, Unpinned(fs)) && nalloc == |alloc| && Enum(pinned, Pinned(fs)) && npinned == |pinned|
  }

  ghost predicate UniqueKeys(fs: Frames) {
    forall f, g | f in fs && g in fs && fs[f].key == fs[g].key :: f == g
  }

  /** A frame of a file page has its page on disk, with the same contents unless it is dirty. A frame of
      an anonymous or shadow page is nowhere else, and is pinned. */
  predicate FrameStored(x: PFrame, kinds: map<nat, Kind>, disk: map<Key, nat>) {
    x.key.obj in kinds &&
    if kinds[x.key.obj].File? then x.key in disk && (x.dirty || disk[x.key] == x.data) else x.pins > 0
  }

  ghost predicate Stored(fs: Frames, kinds: map<nat, Kind>, disk: map<Key, nat>) {
    forall f | f in fs :: FrameStored(fs[f], kinds, disk)
  }

  /** What a reader of the page gets: what the frame holds, else what is on disk. */
  ghost function Contents(fs: Frames, disk: map<Key, nat>, k: Key): Option<nat> {
    if f: Fid :| f in fs && fs[f].key == k then Some(fs[f].data)
    else if k in disk then Some(disk[k]) else None
  }

  predicate IsFile(kinds: map<nat, Kind>, o: nat) {
    o in kinds && kinds[o].File?
  }

  /** Every file page reads the same. */
  ghost predicate SameFiles(fs: Frames, disk: map<Key, nat>, gs: Frames, store: map<Key, nat>, kinds: map<nat, Kind>) {
    forall k: Key | IsFile(kinds, k.obj) :: Contents(gs, store, k) == Contents(fs, disk, k)
  }

  /** Changing pins, flags and data of frames leaves chains and object lists as they are. */
  lemma SameKeys(fs: Frames, gs: Frames, size: nat, chains: seq<seq<Fid>>, res: map<nat, seq<Fid>>, nres: map<nat, int>)
    requires fs.Keys == gs.Keys && forall f | f in fs :: fs[f].key == gs[f].key
    requires ChainsOk(fs, size, chains) && ObjectsOk(fs, res, nres) && UniqueKeys(fs)
    ensures ChainsOk(gs, size, chains) && ObjectsOk(gs, res, nres) && UniqueKeys(gs)
  {
    forall b | 0 <= b < size
      ensures InChain(gs, size, b) == InChain(fs, size, b)
    {
    }
    forall o
      ensures Of(gs, o) == Of(fs, o)
    {
    }
  }

  function Repinned(fs: Frames, f: Fid, n: nat): Frames
    requires f in fs
  {
    fs[f := PFrame(fs[f].key, n, fs[f].dirty, fs[f].data)]
  }

  lemma PinQueues(fs: Frames, alloc: seq<Fid>, nalloc: int, pinned: seq<Fid>, npinned: int, f: Fid)
    requires QueuesOk(fs, alloc, nalloc, pinned, npinned) && f in fs
    ensures fs[f].pins > 0 ==> QueuesOk(Repinned(fs, f, fs[f].pins + 1), alloc, nalloc, pinned, npinned)
    ensures fs[f].pins == 0 ==> QueuesOk(Repinned(fs, f, 1), Without(alloc, f), nalloc - 1, pinned + [f], npinned + 1)
  {
    var u, q := Unpinned(fs), Pinned(fs);
    if fs[f].pins > 0 {
      var gs := Repinned(fs, f, fs[f].pins + 1);
      assert Unpinned(gs) == u && Pinned(gs) == q;
    } else {
      var gs := Repinned(fs, f, 1);
      EnumWithout(alloc, u, f);
      EnumAdd(pinned, q, f);
      assert Unpinned(gs) == u - {f} && Pinned(gs) == q + {f};
    }
  }

  lemma UnpinQueues(fs: Frames, alloc: seq<Fid>, nalloc: int, pinned: seq<Fid>, npinned: int, f: Fid)
    requires QueuesOk(fs, alloc, nalloc, pinned, npinned) && f in fs && fs[f].pins > 0
    ensures fs[f].pins > 1 ==> QueuesOk(Repinned(fs, f, fs[f].pins - 1), alloc, nalloc, pinned, npinned)
    ensures fs[f].pins == 1 ==> QueuesOk(Repinned(fs, f, 0), alloc + [f], nalloc + 1, Without(pinned, f), npinned - 1)
    ensures f !in alloc
  {
    var u, q := Unpinned(fs), Pinned(fs);
    assert f in q && f !in u;
    if fs[f].pins > 1 {
      var gs := Repinned(fs, f, fs[f].pins - 1);
      assert Unpinned(gs) == u && Pinned(gs) == q;
    } else {
      var gs := Repinned(fs, f, 0);
      EnumWithout(pinned, q, f);
      EnumAdd(alloc, u, f);
      assert Unpinned(gs) == u + {f} && Pinned(gs) == q - {f};
    }
  }

  /** The lists, chains and counters that have to agree with the frames. */
  datatype AllLists = AllLists(chains: seq<seq<Fid>>, alloc: seq<Fid>, nalloc: int, pinned: seq<Fid>, npinned: int,
                               res: map<nat, seq<Fid>>, nres: map<nat, int>)

  /** They agree, and the allocated list is in order of last request, allocation or unpin. */
  ghost predicate CacheOk(fs: Frames, size: nat, l: AllLists, next: Fid, stamp: map<Fid, nat>, clock: nat) {
    && ChainsOk(fs, size, l.chains) && ObjectsOk(fs, l.res, l.nres)
    && QueuesOk(fs, l.alloc, l.nalloc, l.pinned, l.npinned) && UniqueKeys(fs)
    && (forall f | f in fs :: f < next && f in stamp && stamp[f] < clock)
    && InOrder(l.alloc, stamp)
  }

  lemma BackOk(fs: Frames, size: nat, l: AllLists, next: Fid, stamp: map<Fid, nat>, clock: nat, f: Fid)
    requires CacheOk(fs, size, l, next, stamp, clock) && f in fs && fs[f].pins == 0
    ensures CacheOk(fs, size, l.(alloc := Without(l.alloc, f) + [f]), next, stamp[f := clock], clock + 1)
  {
    var u := Unpinned(fs);
    EnumWithout(l.alloc, u, f);
    EnumAdd(Without(l.alloc, f), u - {f}, f);
    assert u - {f} + {f} == u;
    WithoutOrder(l.alloc, f, stamp);
    OrderAppend(Without(l.alloc, f), f, stamp, clock);
  }

  lemma PinOk(fs: Frames, size: nat, l: AllLists, next: Fid, stamp: map<Fid, nat>, clock: nat, f: Fid)
    requires CacheOk(fs, size, l, next, stamp, clock) && f in fs
    ensures var gs := Repinned(fs, f, fs[f].pins + 1);
            CacheOk(gs, size,
                    if fs[f].pins > 0 then l
                    else l.(alloc := Without(l.alloc, f), nalloc := l.nalloc - 1, pinned := l.pinned + [f],
                      npinned := l.npinned + 1),
                    next, stamp, clock)
  {
    WithoutOrder(l.alloc, f, stamp);
    PinQueues(fs, l.alloc, l.nalloc, l.pinned, l.npinned, f);
    SameKeys(fs, Repinned(fs, f, fs[f].pins + 1), size, l.chains, l.res, l.nres);
  }

  lemma UnpinOk(fs: Frames, size: nat, l: AllLists, next: Fid, stamp: map<Fid, nat>, clock: nat, f: Fid)
    requires CacheOk(fs, size, l, next, stamp, clock) && f in fs && fs[f].pins > 0
    ensures var gs := Repinned(fs, f, fs[f].pins - 1);
            if fs[f].pins > 1 then CacheOk(gs, size, l, next, stamp, clock)
            else CacheOk(gs, size,
                         l.(alloc := l.alloc + [f], nalloc := l.nalloc + 1, pinned := Without(l.pinned, f),
                           npinned := l.npinned - 1),
                         next, stamp[f := clock], clock + 1)
  {
    UnpinQueues(fs, l.alloc, l.nalloc, l.pinned, l.npinned, f);
    OrderAppend(l.alloc, f, stamp, clock);
    SameKeys(fs, Repinned(fs, f, fs[f].pins - 1), size, l.chains, l.res, l.nres);
  }

  /** Frame f with identity k in every list it belongs to. */
  function Entered(l: AllLists, size: nat, f: Fid, k: Key): AllLists
    requires size > 0 && |l.chains| == size && k.obj in l.res && k.obj in l.nres
  {
    var b, o := Hash(size, k), k.obj;
    AllLists(l.chains[b := [f] + l.chains[b]], l.alloc + [f], l.nalloc + 1, l.pinned, l.npinned,
             l.res[o := [f] + l.res[o]], l.nres[o := l.nres[o] + 1])
  }

  lemma AllocOk(fs: Frames, size: nat, l: AllLists, next: Fid, stamp: map<Fid, nat>, clock: nat, x: PFrame)
    requires CacheOk(fs, size, l, next, stamp, clock)
    requires x.pins == 0 && x.key.obj in l.res && forall g | g in fs :: fs[g].key != x.key
    ensures size > 0 && |l.chains| == size && x.key.obj in l.nres && next !in fs
    ensures CacheOk(fs[next := x], size, Entered(l, size, next, x.key), next + 1, stamp[next := clock], clock + 1)
  {
    AddLists(fs, next, x, size, l.chains, l.res, l.nres, l.alloc, l.nalloc, l.pinned, l.npinned);
    OrderAppend(l.alloc, next, stamp, clock);
  }

  /** Frame f with identity k out of every list an unpinned frame is in. */
  function Left(l: AllLists, size: nat, f: Fid, k: Key): AllLists
    requires size > 0 && |l.chains| == size && k.obj in l.res && k.obj in l.nres
  {
    var b, o := Hash(size, k), k.obj;
    AllLists(l.chains[b := Without(l.chains[b], f)], Without(l.alloc, f), l.nalloc - 1, l.pinned, l.npinned,
             l.res[o := Without(l.res[o], f)], l.nres[o := l.nres[o] - 1])
  }

  lemma FreeOk(fs: Frames, size: nat, l: AllLists, next: Fid, stamp: map<Fid, nat>, clock: nat, f: Fid)
    requires CacheOk(fs, size, l, next, stamp, clock) && f in fs && fs[f].pins == 0
    ensures size > 0 && |l.chains| == size && fs[f].key.obj in l.res && fs[f].key.obj in l.nres
    ensures CacheOk(fs - {f}, size, Left(l, size, f, fs[f].key), next, stamp, clock)
  {
    DropLists(fs, f, size, l.chains, l.res, l.nres, l.alloc, l.nalloc, l.pinned, l.npinned);
    WithoutOrder(l.alloc, f, stamp);
  }

  class Cache {
    const size: nat               // PF_HASH_SIZE
    var frames: Frames
    var next: Fid
    var chains: seq<seq<Fid>>
    var alloc: seq<Fid>
    var nalloc: int
    var pinned: seq<Fid>
    var npinned: int
    var res: map<nat, seq<Fid>>   // mmo_respages
    var nres: map<nat, int>       // mmo_nrespages
    var free: nat                 // page_free_count
    var kinds: map<nat, Kind>     // of the objects
    var disk: map<Key, nat>       // the pages of the files
    ghost var clock: nat
    ghost var stamp: map<Fid, nat>  // when a frame was last requested, allocated or unpinned

    ghost function All(): AllLists
      reads this
    {
      AllLists(chains, alloc, nalloc, pinned, npinned, res, nres)
    }

    /** Lists and counters agree. */
    ghost predicate Listed()
      reads this
    {
      CacheOk(frames, size, All(), next, stamp, clock)
    }

    /** So that nothing is lost when a clean frame on the allocated list is reclaimed. */
    ghost predicate Valid()
      reads this
    {
      Listed() && res.Keys == kinds.Keys && Stored(frames, kinds, disk)
    }

    /** pframe_init */
    constructor (n: nat, pages: nat, store: map<Key, nat>)
      requires n > 0
      ensures Valid() && size == n && frames == map[] && alloc == [] && pinned == [] && free == pages
      ensures disk == store && kinds == map[]
    {
      size := n;
      frames, next, free, disk, kinds := map[], 0, pages, store, map[];
      chains := seq(n, _ => []);
      alloc, nalloc, pinned, npinned := [], 0, [], 0;
      res, nres := map[], map[];
      clock, stamp := 0, map[];
    }

    /** A new object, without resident pages. */
    method AddObject(o: nat, kind: Kind)
      requires Valid() && o !in kinds
      modifies this`res, this`nres, this`kinds
      ensures Valid() && kinds == old(kinds)[o := kind] && res == old(res)[o := []] && nres == old(nres)[o := 0]
    {
      AddOk(frames, size, All(), next, stamp, clock, kinds, disk, o, kind);
      hide CacheOk, Stored;
      res, nres, kinds := res[o := []], nres[o := 0], kinds[o := kind];
    }

    // ----- Requests -----

    /** Send an allocated frame to the back of the allocated list. */
    method MoveToBack(f: Fid)
      requires Listed() && f in frames && frames[f].pins == 0
      modifies this`alloc, this`stamp, this`clock
      ensures Listed() && alloc == Without(old(alloc), f) + [f]
    {
      hide CacheOk;
      BackOk(frames, size, All(), next, stamp, clock, f);
      alloc := Without(alloc, f) + [f];
      stamp, clock := stamp[f := clock], clock + 1;
    }

    /** pframe_get_resident: search the hash chain of the identity. */
    method GetResident(k: Key) returns (r: Option<Fid>)
      requires Listed()
      modifies this`alloc, this`stamp, this`clock
      ensures Listed() && (old(Valid()) ==> Valid())
      ensures r.None? ==> forall f | f in frames :: frames[f].key != k
      ensures r.Some? ==> r.value in frames && frames[r.value].key == k
      ensures alloc == if r.Some? &&
              frames[r.value].pins == 0 then Without(old(alloc), r.value) + [r.value] else old(alloc)
    {
      var chain := chains[Hash(size, k)];
      ghost var here := InChain(frames, size, Hash(size, k));
      for i := 0 to |chain|
        invariant Listed() && alloc == old(alloc) && Enum(chain, here)
        invariant forall j | 0 <= j < i :: chain[j] in frames && frames[chain[j]].key != k
      {
        var f := chain[i];
        assert f in here;
        if frames[f].key == k {
          if frames[f].pins == 0 {
            MoveToBack(f);
          }
          return Some(f);
        }
      }
      r := None;
      forall f | f in frames
        ensures frames[f].key != k
      {
        assert f in here <==> f in chain;
      }
    }

    // ----- Pinning -----

    /** pframe_pin: the first pin moves the frame to the pinned list. */
    method PinFrame(f: Fid)
      requires Listed() && f in frames
      modifies this`frames, this`alloc, this`nalloc, this`pinned, this`npinned
      ensures Listed() && frames == Repinned(old(frames), f, old(frames)[f].pins + 1)
      ensures old(Valid()) ==> Valid()
      ensures old(frames)[f].pins == 0 ==> alloc == Without(old(alloc), f) && pinned == old(pinned) + [f]
      ensures old(frames)[f].pins > 0 ==> alloc == old(alloc) && pinned == old(pinned)
    {
      hide CacheOk, Stored;
      PinOk(frames, size, All(), next, stamp, clock, f);
      RepinStored(frames, kinds, disk, f, frames[f].pins + 1);
      frames := Repinned(frames, f, frames[f].pins + 1);
      if frames[f].pins == 1 {
        alloc := Without(alloc, f);
        nalloc := nalloc - 1;
        pinned := pinned + [f];
        npinned := npinned + 1;
      }
    }

    /** pframe_unpin: the last unpin moves the frame to the back of the allocated list. */
    method UnpinFrame(f: Fid)
      requires Listed() && f in frames && frames[f].pins > 0
      modifies this`frames, this`alloc, this`nalloc, this`pinned, this`npinned, this`stamp, this`clock
      ensures Listed() && frames == Repinned(old(frames), f, old(frames)[f].pins - 1)
      ensures old(Valid()) ==> (Valid() <==> IsFile(kinds, frames[f].key.obj) || old(frames)[f].pins > 1)
      ensures old(frames)[f].pins == 1 ==> pinned == Without(old(pinned), f) && alloc == old(alloc) + [f]
      ensures old(frames)[f].pins > 1 ==> alloc == old(alloc) && pinned == old(pinned)
    {
      hide CacheOk, Stored;
      UnpinOk(frames, size, All(), next, stamp, clock, f);
      RepinStored(frames, kinds, disk, f, frames[f].pins - 1);
      frames := Repinned(frames, f, frames[f].pins - 1);
      if frames[f].pins == 0 {
        pinned := Without(pinned, f);
        npinned := npinned - 1;
        Append(f);
      }
    }

    // ----- Allocating and freeing -----

    /** Enter f at the back of the allocated list. */
    method Append(f: Fid)
      modifies this`alloc, this`nalloc, this`stamp, this`clock
      ensures alloc == old(alloc) + [f] && nalloc == old(nalloc) + 1
      ensures stamp == old(stamp)[f := old(clock)] && clock == old(clock) + 1
    {
      nalloc, alloc := nalloc + 1, alloc + [f];
      stamp, clock := stamp[f := clock], clock + 1;
    }

    /** Enter f into its hash chain and into the resident list of its object. */
    method Link(f: Fid, k: Key)
      requires size > 0 && |chains| == size && k.obj in res && k.obj in nres
      modifies this`chains, this`res, this`nres
      ensures chains == old(chains[Hash(size, k) := [f] + chains[Hash(size, k)]])
      ensures res == old(res[k.obj := [f] + res[k.obj]]) && nres == old(nres[k.obj := nres[k.obj] + 1])
    {
      var b := Hash(size, k);
      chains := chains[b := [f] + chains[b]];
      nres := nres[k.obj := nres[k.obj] + 1];
      res := res[k.obj := [f] + res[k.obj]];
    }

    method Unlink(f: Fid, k: Key)
      requires size > 0 && |chains| == size && k.obj in res && k.obj in nres
      modifies this`chains, this`res, this`nres
      ensures chains == old(chains[Hash(size, k) := Without(chains[Hash(size, k)], f)])
      ensures res == old(res[k.obj := Without(res[k.obj], f)]) && nres == old(nres[k.obj := nres[k.obj] - 1])
    {
      var b := Hash(size, k);
      chains := chains[b := Without(chains[b], f)];
      nres := nres[k.obj := nres[k.obj] - 1];
      res := res[k.obj := Without(res[k.obj], f)];
    }

    /** pframe_alloc, for an identity that is not resident; the object is known to the cache. */
    method AllocFrame(k: Key, junk: nat) returns (f: Fid)
      requires Listed() && k.obj in res && free > 0 && forall g | g in frames :: frames[g].key != k
      modifies this`frames, this`next, this`alloc, this`nalloc, this`chains, this`res, this`nres, this`free,
               this`stamp, this`clock
      ensures Listed() && f !in old(frames) && frames == old(frames)[f := PFrame(k, 0, false, junk)]
      ensures f == old(next) && alloc == old(alloc) + [f] && free == old(free) - 1 && res.Keys == old(res).Keys
    {
      hide CacheOk, Entered;
      AllocOk(frames, size, All(), next, stamp, clock, PFrame(k, 0, false, junk));
      f := next;
      Enter(f, k);
      next, free := next + 1, free - 1;
      frames := frames[f := PFrame(k, 0, false, junk)];
    }

    method Enter(f: Fid, k: Key)
      requires size > 0 && |chains| == size && k.obj in res && k.obj in nres
      modifies this`chains, this`res, this`nres, this`alloc, this`nalloc, this`stamp, this`clock
      ensures All() == Entered(old(All()), size, f, k) && alloc == old(alloc) + [f] && res.Keys == old(res).Keys
      ensures stamp == old(stamp)[f := old(clock)] && clock == old(clock) + 1
    {
      Link(f, k);
      Append(f);
    }

    /** pframe_free, for a frame that is not pinned. */
    method FreeFrame(f: Fid)
      requires Listed() && f in frames && frames[f].pins == 0
      modifies this`frames, this`alloc, this`nalloc, this`chains, this`res, this`nres, this`free
      ensures Listed() && (old(Valid()) ==> Valid())
      ensures frames == old(frames) - {f} && alloc == Without(old(alloc), f) && free == old(free) + 1
      ensures res.Keys == old(res).Keys && old(frames)[f].key.obj in old(res)
      ensures res == old(res)[old(frames)[f].key.obj := Without(old(res)[old(frames)[f].key.obj], f)]
    {
      hide CacheOk, Left, Stored, SameFiles, UniqueKeys;
      FreeOk(frames, size, All(), next, stamp, clock, f);
      OkUnique(frames, size, All(), next, stamp, clock);
      FreedFiles(frames, kinds, disk, f);
      Delist(f, frames[f].key);
      frames := frames - {f};
      free := free + 1;
    }

    method Delist(f: Fid, k: Key)
      requires size > 0 && |chains| == size && k.obj in res && k.obj in nres
      modifies this`chains, this`res, this`nres, this`alloc, this`nalloc
      ensures All() == Left(old(All()), size, f, k) && alloc == Without(old(alloc), f)
      ensures res.Keys == old(res).Keys && res == old(res)[k.obj := Without(old(res)[k.obj], f)]
    {
      Unlink(f, k);
      nalloc, alloc := nalloc - 1, Without(alloc, f);
    }

    // ----- What the object's operations do to a frame -----

    /** Write the flag and the contents of a frame. */
    method Mark(f: Fid, dirty: bool, data: nat)
      requires Listed() && f in frames
      modifies this`frames
      ensures Listed() && frames == Marked(old(frames), f, dirty, data)
    {
      hide CacheOk;
      MarkOk(frames, size, All(), next, stamp, clock, f, dirty, data);
      frames := Marked(frames, f, dirty, data);
    }

    /** pframe_fill on a new frame. A file page comes from disk, an anonymous page is zeros, and a shadow
        page is what its object finds below; the last two are pinned. */
    method FillFrame(f: Fid, ok: bool, below: nat) returns (filled: bool)
      requires Listed() && f in frames && frames[f].pins == 0 && !frames[f].dirty && frames[f].key.obj in kinds
      modifies this`frames, this`alloc, this`nalloc, this`pinned, this`npinned
      ensures Listed() && filled == Fill(kinds, disk, old(frames)[f].key, ok, below).Some?
      ensures frames ==
              if filled then old(frames)[f := Brought(kinds, disk, old(frames)[f].key, ok, below)] else old(frames)
      ensures !filled ==> alloc == old(alloc)
      ensures var k := old(frames)[f].key;
              match kinds[k.obj]
              case File => (filled <==> ok && k in disk) && (filled ==> frames[f] == PFrame(k, 0, false, disk[k]))
              case Anon => filled && frames[f] == PFrame(k, 1, false, ZEROS)
              case Shadow => (filled <==> ok) && (ok ==> frames[f] == PFrame(k, 1, false, below))
    {
      hide CacheOk;
      var k := frames[f].key;
      var data := Fill(kinds, disk, k, ok, below);
      filled := data.Some?;
      if filled {
        Mark(f, false, data.value);
        if !kinds[k.obj].File? {
          PinFrame(f);
        }
      }
    }

    /** pframe_get, when nothing is busy: the resident frame, or a new one that was filled. */
    method GetFrame(k: Key, ok: bool, below: nat, junk: nat) returns (r: Option<Fid>)
      requires Valid() && k.obj in kinds && free > 0
      modifies this`frames, this`next, this`alloc, this`nalloc, this`pinned, this`npinned, this`chains,
               this`res, this`nres, this`free, this`stamp, this`clock
      ensures Valid() && SameFiles(old(frames), disk, frames, disk, kinds)
      ensures r.Some? <==> Resident(old(frames), k) || Fill(kinds, disk, k, ok, below).Some?
      ensures r.Some? ==> r.value in frames && frames[r.value].key == k
      ensures r.Some? ==> (r.value in old(frames) <==> Resident(old(frames), k))
      ensures r.Some? && IsFile(kinds, k.obj) ==> Contents(old(frames), disk, k) == Some(frames[r.value].data)
      ensures frames == if r.None? || Resident(old(frames), k) then old(frames)
                        else old(frames)[r.value := Brought(kinds, disk, k, ok, below)]
      ensures free == old(free) - if r.None? || Resident(old(frames), k) then 0 else 1
      ensures !Resident(old(frames), k) ==>
                match kinds[k.obj]
                case File =>
                  (r.Some? <==> ok && k in disk) && (r.Some? ==> frames[r.value] == PFrame(k, 0, false, disk[k]))
                case Anon => r.Some? && frames[r.value] == PFrame(k, 1, false, ZEROS)
                case Shadow => (r.Some? <==> ok) && (ok ==> frames[r.value] == PFrame(k, 1, false, below))
    {
      hide CacheOk, Stored, SameFiles, Contents;
      OkUnique(frames, size, All(), next, stamp, clock);
      SameItself(frames, disk, kinds);
      r := GetResident(k);
      if r.Some? {
        ContentsAt(frames, disk, r.value);
        return;
      }
      assert !Resident(frames, k);
      r := LoadFrame(k, ok, below, junk);
    }

    /** The rest of pframe_get, for a page that is not resident: a new frame, freed again if the fill fails. */
    method LoadFrame(k: Key, ok: bool, below: nat, junk: nat) returns (r: Option<Fid>)
      requires Valid() && k.obj in kinds && free > 0 && !Resident(frames, k)
      modifies this`frames, this`next, this`alloc, this`nalloc, this`pinned, this`npinned, this`chains,
               this`res, this`nres, this`free, this`stamp, this`clock
      ensures Valid() && SameFiles(old(frames), disk, frames, disk, kinds)
      ensures r.Some? <==> Fill(kinds, disk, k, ok, below).Some?
      ensures r.Some? ==> r.value !in old(frames)
      ensures r.Some? && IsFile(kinds, k.obj) ==>
                Contents(old(frames), disk, k) == Some(Brought(kinds, disk, k, ok, below).data)
      ensures frames == if r.None? then old(frames) else old(frames)[r.value := Brought(kinds, disk, k, ok, below)]
      ensures free == old(free) - if r.None? then 0 else 1
      ensures match kinds[k.obj]
              case File =>
                (r.Some? <==> ok && k in disk) && (r.Some? ==> frames[r.value] == PFrame(k, 0, false, disk[k]))
              case Anon => r.Some? && frames[r.value] == PFrame(k, 1, false, ZEROS)
              case Shadow => (r.Some? <==> ok) && (ok ==> frames[r.value] == PFrame(k, 1, false, below))
    {
      OkUnique(frames, size, All(), next, stamp, clock);
      NotResident(frames, k);
      SameItself(frames, disk, kinds);
      if Fill(kinds, disk, k, ok, below).Some? && next !in frames {
        BroughtOk(frames, kinds, disk, next, k, ok, below);
      }
      hide CacheOk, Stored, SameFiles, Contents, Resident, UniqueKeys, Fill, Brought;
      var f, filled := AllocAndFill(k, ok, below, junk);
      if filled {
        return Some(f);
      }
      FreeFrame(f);
      SetAndDropped(old(frames), f, PFrame(k, 0, false, junk));
      r := None;
    }

    method AllocAndFill(k: Key, ok: bool, below: nat, junk: nat) returns (f: Fid, filled: bool)
      requires Listed() && k.obj in res && k.obj in kinds && free > 0 && forall g | g in frames :: frames[g].key != k
      modifies this`frames, this`next, this`alloc, this`nalloc, this`pinned, this`npinned, this`chains,
               this`res, this`nres, this`free, this`stamp, this`clock
      ensures Listed() && res.Keys == old(res).Keys && f == old(next) && f !in old(frames) && free == old(free) - 1
      ensures filled <==> Fill(kinds, disk, k, ok, below).Some?
      ensures frames == old(frames)[f := if filled then Brought(kinds, disk, k, ok, below) else PFrame(k, 0, false,
              junk)]
    {
      hide CacheOk, Fill, Brought;
      f := AllocFrame(k, junk);
      filled := FillFrame(f, ok, below);
      if filled {
        SetAgain(old(frames), f, PFrame(k, 0, false, junk), Brought(kinds, disk, k, ok, below));
      }
    }

    /** pframe_dirty */
    method DirtyFrame(f: Fid, ok: bool)
      requires Listed() && f in frames
      modifies this`frames
      ensures Listed() && (old(Valid()) ==> Valid())
      ensures frames == Marked(old(frames), f, old(frames)[f].dirty || ok, old(frames)[f].data)
      ensures SameFiles(old(frames), disk, frames, disk, kinds)
    {
      hide CacheOk;
      OkUnique(frames, size, All(), next, stamp, clock);
      SameData(frames, Marked(frames, f, frames[f].dirty || ok, frames[f].data), disk, kinds);
      if ok {
        Mark(f, true, frames[f].data);
      } else {
        assert frames == Marked(frames, f, frames[f].dirty, frames[f].data);
      }
    }

    /** A turn of vmmap_write: the new contents, then pframe_dirty, whose result is not looked at. The page
        reads as written, and is safe from pageout exactly if it is dirty now, or not a page of a file, or
        was on disk like this already. */
    method WriteFrame(f: Fid, data: nat, ok: bool)
      requires Valid() && f in frames
      modifies this`frames
      ensures Listed() && res.Keys == kinds.Keys
      ensures frames == Marked(old(frames), f, old(frames)[f].dirty || ok, data)
      ensures Contents(frames, disk, frames[f].key) == Some(data)
      ensures forall k | k != frames[f].key :: Contents(frames, disk, k) == Contents(old(frames), disk, k)
      ensures Valid() <==>
              old(frames)[f].dirty || ok || !IsFile(kinds, frames[f].key.obj) || disk[frames[f].key] == data
    {
      hide CacheOk, Stored, Contents, UniqueKeys;
      OkUnique(frames, size, All(), next, stamp, clock);
      WrittenOk(frames, kinds, disk, f, old(frames)[f].dirty || ok, data);
      Mark(f, frames[f].dirty, data);
      DirtyFrame(f, ok);
      assert frames == Marked(old(frames), f, old(frames)[f].dirty || ok, data);
    }

    /** What pageoutd does to one frame: clean it if it is dirty, and free it. */
    method EvictFrame(f: Fid)
      requires Listed() && f in frames && frames[f].pins == 0
      modifies this`frames, this`disk, this`alloc, this`nalloc, this`chains, this`res, this`nres, this`free
      ensures Listed() && frames == old(frames) - {f} && free == old(free) + 1
      ensures disk == CleanedDisk(old(frames)[f], kinds, old(disk))
    {
      hide CacheOk, Stored, SameFiles;
      if frames[f].dirty {
        CleanFrame(f, true);
      }
      FreeFrame(f);
      assert frames == old(frames) - {f};
    }

    /** A file page is written and its frame then reclaimed: the page reads as written exactly if the frame
        was dirty, or pframe_dirty succeeded, or the page was like this on disk. */
    method WriteOut(f: Fid, data: nat, ok: bool)
      requires Valid() && f in frames && frames[f].pins == 0
      modifies this`frames, this`disk, this`alloc, this`nalloc, this`chains, this`res, this`nres, this`free
      ensures Listed() && frames == old(frames) - {f} && free == old(free) + 1
      ensures var k := old(frames)[f].key;
              && k in old(disk)
              && (Contents(frames, disk, k) == Some(data) <==>
                  old(frames)[f].dirty || ok || old(disk)[k] == data)
      ensures Contents(frames, disk, old(frames)[f].key) in
              {Some(data), Contents(old(frames), old(disk), old(frames)[f].key)}
    {
      hide CacheOk, Stored, SameFiles;
      OkUnique(frames, size, All(), next, stamp, clock);
      UnpinnedIsFile(frames, kinds, disk, f);
      UnpinnedOnDisk(frames, kinds, disk, f);
      WriteSurvives(frames, kinds, disk, f, ok, data);
      ContentsAt(frames, disk, f);
      NoFrame(frames - {f}, CleanedDisk(Marked(frames, f, frames[f].dirty || ok, data)[f], kinds, disk), frames[f].key);
      hide Contents, UniqueKeys;
      WriteFrame(f, data, ok);
      EvictFrame(f);
      assert frames == old(frames) - {f} && frames == Marked(old(frames), f, old(frames)[f].dirty || ok, data) - {f};
    }

    /** One page of an object that is no longer used, at the head of its list. */
    method UncacheFrame(o: nat)
      requires Listed() && o in res && res[o] != []
      requires forall f | f in Of(frames, o) :: frames[f].pins == 1
      modifies this`frames, this`alloc, this`nalloc, this`pinned, this`npinned, this`chains,
               this`res, this`nres, this`free, this`stamp, this`clock
      ensures Listed() && old(res)[o][0] in Of(old(frames), o)
      ensures frames == old(frames) - {old(res)[o][0]} && free == old(free) + 1
      ensures res == old(res)[o := old(res)[o][1..]]
    {
      hide CacheOk;
      var f := res[o][0];
      OkObject(frames, size, All(), next, stamp, clock, o, f);
      WithoutHead(res[o]);
      UnpinFrame(f);
      FreeFrame(f);
      assert frames == old(frames) - {f};
    }

    /** The loop of anon_put and shadow_put: the pages of an object that is no longer used are unpinned and
        freed. */
    method UncacheObject(o: nat)
      requires Valid() && o in kinds && !IsFile(kinds, o) && forall f | f in Of(frames, o) :: frames[f].pins == 1
      modifies this`frames, this`alloc, this`nalloc, this`pinned, this`npinned, this`chains,
               this`res, this`nres, this`free, this`stamp, this`clock
      ensures Valid() && SameFiles(old(frames), disk, frames, disk, kinds)
      ensures frames == old(frames) - Of(old(frames), o) && free == old(free) + |old(res)[o]|
    {
      hide CacheOk, SameFiles, Stored;
      OkUnique(frames, size, All(), next, stamp, clock);
      ghost var n := 0;
      while res[o] != []
        invariant Listed() && res.Keys == kinds.Keys
        invariant n <= |old(res)[o]| && res[o] == old(res)[o][n..] && free == old(free) + n
        invariant forall f | f in frames :: f in old(frames) && frames[f] == old(frames)[f]
        invariant forall f | f in old(frames) && f !in frames :: f in Of(old(frames), o)
        decreases |res[o]|
      {
        UncacheFrame(o);
        n := n + 1;
      }
      forall f | f in Of(old(frames), o)
        ensures f !in frames
      {
        OkObject(frames, size, All(), next, stamp, clock, o, f);
      }
      assert frames == old(frames) - Of(old(frames), o);
      OthersGone(old(frames), disk, kinds, o);
    }

    // ----- The pageout daemon and sync, when nothing is busy -----

    /** pframe_clean: a failed clean makes the frame dirty again. */
    method CleanFrame(f: Fid, ok: bool)
      requires Listed() && f in frames && frames[f].dirty && frames[f].pins == 0
      modifies this`frames, this`disk
      ensures Listed() && (old(Valid()) ==> Valid())
      ensures frames == if ok then Cleaned(old(frames), f) else old(frames)
      ensures disk == if ok &&
              IsFile(kinds, frames[f].key.obj) then old(disk)[frames[f].key := frames[f].data] else old(disk)
      ensures SameFiles(old(frames), old(disk), frames, disk, kinds)
    {
      hide CacheOk;
      OkUnique(frames, size, All(), next, stamp, clock);
      SameItself(frames, disk, kinds);
      CleanedOk(frames, kinds, disk, f);
      hide Stored, SameFiles;
      var x := frames[f];
      Mark(f, false, x.data);
      if ok {
        if x.key.obj in kinds && kinds[x.key.obj].File? {
          disk := disk[x.key := x.data];
        }
      } else {
        Mark(f, true, x.data);
        assert frames == old(frames);
      }
    }

    /** pframe_clean on a frame of the allocated list. */
    method CleanListed(f: Fid, ok: bool)
      requires Valid() && f in alloc && f in frames && frames[f].dirty
      modifies this`frames, this`disk
      ensures Valid() && SameFiles(old(frames), old(disk), frames, disk, kinds)
      ensures frames == if ok then Cleaned(old(frames), f) else old(frames)
      ensures disk == if ok then old(disk)[frames[f].key := frames[f].data] else old(disk)
      ensures DirtyCount(frames, alloc) + (if ok then 1 else 0) <= DirtyCount(old(frames), alloc)
    {
      hide CacheOk, Stored, SameFiles, DirtyCount;
      OkListed(frames, size, All(), next, stamp, clock, f);
      UnpinnedIsFile(frames, kinds, disk, f);
      CleaningCounts(frames, alloc, f);
      CleanFrame(f, ok);
    }

    /** pframe_free on the least recently requested frame, when it is clean. */
    method ReclaimHead()
      requires Valid() && alloc != [] && alloc[0] in frames && !frames[alloc[0]].dirty
      modifies this`frames, this`alloc, this`nalloc, this`chains, this`res, this`nres, this`free
      ensures Valid() && SameFiles(old(frames), disk, frames, disk, kinds)
      ensures frames == old(frames) - {old(alloc)[0]} && alloc == old(alloc)[1..] && free == old(free) + 1
      ensures FrameOnDisk(old(frames)[old(alloc)[0]], disk)
      ensures DirtyCount(frames, alloc) == DirtyCount(old(frames), old(alloc))
    {
      var f := alloc[0];
      OkListed(frames, size, All(), next, stamp, clock, f);
      OkUnique(frames, size, All(), next, stamp, clock);
      UnpinnedIsFile(frames, kinds, disk, f);
      FreedFiles(frames, kinds, disk, f);
      WithoutHead(alloc);
      CountTail(frames, alloc);
      hide CacheOk, Stored, SameFiles, DirtyCount, UniqueKeys, NoDup;
      FreeFrame(f);
    }

    /** The loop of pageoutd_run, with the results of the cleaning operations it starts; it is still at
        work, and done is false, when there are no more of these. It reclaims least recently requested
        frames, none of them dirty or pinned, until the target is met or the list is empty. No file page
        changes, whatever is reclaimed. */
    method Pageout(target: nat, results: seq<bool>) returns (done: bool, ghost k: nat)
      requires Valid()
      modifies this`frames, this`disk, this`alloc, this`nalloc, this`chains, this`res, this`nres, this`free
      ensures Valid() && SameFiles(old(frames), old(disk), frames, disk, kinds)
      ensures done ==> free >= target || alloc == []
      ensures Successes(results) >= DirtyCount(old(frames), old(alloc)) ==> done
      ensures k <= |old(alloc)| && alloc == old(alloc)[k..] && free == old(free) + k
      ensures k > 0 ==> old(free) + k <= target
      ensures Reclaimed(old(frames), old(alloc), k, frames, disk)
    {
      hide CacheOk, UniqueKeys, Stored, Reclaimed, SameFiles, DirtyCount, Successes;
      k := 0;
      var i := 0;
      OkUnique(frames, size, All(), next, stamp, clock);
      NothingReclaimed(frames, alloc, disk);
      SameItself(frames, disk, kinds);
      assert old(alloc)[0..] == old(alloc) && results[0..] == results;
      while free < target && alloc != []
        invariant Valid() && SameFiles(old(frames), old(disk), frames, disk, kinds)
        invariant k <= |old(alloc)| && alloc == old(alloc)[k..] && free == old(free) + k
        invariant k > 0 ==> old(free) + k <= target
        invariant Reclaimed(old(frames), old(alloc), k, frames, disk)
        invariant i <= |results|
        invariant Successes(results) >= DirtyCount(old(frames), old(alloc)) ==>
                    Successes(results[i..]) >= DirtyCount(frames, alloc)
        decreases |results| - i, |alloc|
      {
        ghost var fs, was := frames, disk;
        var f := alloc[0];
        OkListed(frames, size, All(), next, stamp, clock, f);
        if !frames[f].dirty {
          ReclaimHead();
          ReclaimFree(old(frames), old(alloc), k, fs, disk);
          k := k + 1;
        } else if i < |results| {
          ReclaimClean(old(frames), old(alloc), k, frames, disk, f);
          SuccessesAt(results, i);
          CleanListed(f, results[i]);
          i := i + 1;
        } else {
          NoneLeft(frames, alloc, f);
          assert results[i..] == [];
          return false, k;
        }
        SameTrans(old(frames), old(disk), fs, was, kinds, frames, disk);
      }
      done := true;
    }

    /** pframe_clean_all: start over after every page cleaned, until no dirty page is left on the list. */
    method CleanAll(results: seq<bool>) returns (done: bool)
      requires Valid()
      modifies this`frames, this`disk
      ensures Valid() && SameFiles(old(frames), old(disk), frames, disk, kinds)
      ensures done ==> forall f | f in alloc :: f in frames && !frames[f].dirty && FrameOnDisk(frames[f], disk)
      ensures Successes(results) >= DirtyCount(old(frames), alloc) ==> done
      ensures frames.Keys == old(frames).Keys
    {
      hide CacheOk, Stored, SameFiles, DirtyCount, Successes;
      var i, n := 0, 0;
      SameItself(frames, disk, kinds);
      assert results[0..] == results;
      while i < |alloc|
        invariant Valid() && SameFiles(old(frames), old(disk), frames, disk, kinds) && frames.Keys == old(frames).Keys
        invariant i <= |alloc| && forall j | 0 <= j < i :: alloc[j] in frames && !frames[alloc[j]].dirty
        invariant n <= |results|
        invariant Successes(results) >= DirtyCount(old(frames), alloc) ==>
                    Successes(results[n..]) >= DirtyCount(frames, alloc)
        decreases |results| - n, |alloc| - i
      {
        var f := alloc[i];
        OkListed(frames, size, All(), next, stamp, clock, f);
        if frames[f].dirty {
          if n == |results| {
            NoneLeft(frames, alloc, f);
            assert results[n..] == [];
            return false;
          }
          SuccessesAt(results, n);
          ghost var fs, was := frames, disk;
          CleanListed(f, results[n]);
          SameTrans(old(frames), old(disk), fs, was, kinds, frames, disk);
          i, n := 0, n + 1;
        } else {
          i := i + 1;
        }
      }
      done := true;
      forall f | f in alloc
        ensures f in frames && !frames[f].dirty && FrameOnDisk(frames[f], disk)
      {
        OkListed(frames, size, All(), next, stamp, clock, f);
        UnpinnedIsFile(frames, kinds, disk, f);
      }
    }
  }

  /** A file page that is read in, written and reclaimed: the write is on disk and the frame is free again. */
  method WriteAndReclaim(size: nat, k: Key, was: nat, data: nat) returns (c: Cache)
    requires size > 0
    ensures fresh(c) && c.Valid() && c.frames == map[] && c.free == 1
    ensures k in c.disk && c.disk[k] == data
  {
    hide CacheOk, Stored, Contents, SameFiles;
    var f;
    c, f := ReadAndWrite(size, k, was, data, true);
    OneDirty(c.frames, f);
    hide DirtyCount, Successes;
    var done, n := c.Pageout(1, [true]);
    assert [f][..1] == [f];
  }

  /** A file page that is read in and written while pframe_dirty fails, and then reclaimed: the write is gone. */
  method LoseWrite(size: nat, k: Key, was: nat, data: nat) returns (c: Cache)
    requires size > 0 && was != data
    ensures fresh(c) && c.Listed() && c.frames == map[] && c.free == 1
    ensures k in c.disk && c.disk[k] == was
  {
    hide CacheOk, Stored, Contents, SameFiles, UniqueKeys;
    var f;
    c, f := ReadAndWrite(size, k, was, data, false);
    c.EvictFrame(f);
    assert c.frames == map[];
  }

  /** Up to the write, with the result of pframe_dirty. */
  method ReadAndWrite(size: nat, k: Key, was: nat, data: nat, ok: bool) returns (c: Cache, f: Fid)
    requires size > 0
    ensures fresh(c) && c.Listed() && (ok ==> c.Valid()) && c.free == 0 && c.alloc == [f]
    ensures c.frames == map[f := PFrame(k, 0, ok, data)] && c.disk == map[k := was]
  {
    hide CacheOk, Stored, Contents, SameFiles, UniqueKeys;
    c := new Cache(size, 1, map[k := was]);
    c.AddObject(k.obj, File);
    var r := c.GetFrame(k, true, 0, 0);
    f := r.value;
    c.WriteFrame(f, data, ok);
    OneListed(c.frames, c.size, c.All(), c.next, c.stamp, c.clock, f);
  }

  lemma OneDirty(fs: Frames, f: Fid)
    requires f in fs && fs[f].dirty
    ensures DirtyCount(fs, [f]) == 1 == Successes([true])
  {
    assert DirtyCount(fs, []) == 0;
  }

  lemma OneListed(fs: Frames, size: nat, l: AllLists, next: Fid, stamp: map<Fid, nat>, clock: nat, f: Fid)
    requires CacheOk(fs, size, l, next, stamp, clock) && fs.Keys == {f} && fs[f].pins == 0
    ensures l.alloc == [f]
  {
    assert Unpinned(fs) == {f};
    EnumOne(l.alloc, f);
  }

  // ----- Fills -----

  ghost predicate Resident(fs: Frames, k: Key) {
    exists f :: f in fs && fs[f].key == k
  }

  /** What a fill brings in, if it succeeds. */
  function Fill(kinds: map<nat, Kind>, disk: map<Key, nat>, k: Key, ok: bool, below: nat): Option<nat>
    requires k.obj in kinds
  {
    match kinds[k.obj]
    case File => if ok && k in disk then Some(disk[k]) else None
    case Anon => Some(ZEROS)
    case Shadow => if ok then Some(below) else None
  }

  function Brought(kinds: map<nat, Kind>, disk: map<Key, nat>, k: Key, ok: bool, below: nat): PFrame
    requires k.obj in kinds && Fill(kinds, disk, k, ok, below).Some?
  {
    PFrame(k, if kinds[k.obj].File? then 0 else 1, false, Fill(kinds, disk, k, ok, below).value)
  }

  lemma BroughtOk(fs: Frames, kinds: map<nat, Kind>, disk: map<Key, nat>, f: Fid, k: Key, ok: bool, below: nat)
    requires Stored(fs, kinds, disk) && UniqueKeys(fs) && f !in fs && !Resident(fs, k)
    requires k.obj in kinds && Fill(kinds, disk, k, ok, below).Some?
    ensures var gs := fs[f := Brought(kinds, disk, k, ok, below)];
            Stored(gs, kinds, disk) && SameFiles(fs, disk, gs, disk, kinds)
    ensures IsFile(kinds, k.obj) ==> Contents(fs, disk, k) == Some(Brought(kinds, disk, k, ok, below).data)
  {
    var gs := fs[f := Brought(kinds, disk, k, ok, below)];
    assert forall g | g in fs :: fs[g].key != k;
    forall j: Key | IsFile(kinds, j.obj)
      ensures Contents(gs, disk, j) == Contents(fs, disk, j)
    {
      if j == k { ContentsAt(gs, disk, f); } else { ContentsKept(fs, gs, disk, disk, j); }
    }
  }

  // ----- What file pages read -----

  lemma SetAgain(fs: Frames, f: Fid, x: PFrame, y: PFrame)
    ensures fs[f := x][f := y] == fs[f := y]
  {
  }

  lemma SetAndDropped(fs: Frames, f: Fid, x: PFrame)
    requires f !in fs
    ensures fs[f := x] - {f} == fs
  {
  }

  lemma NotResident(fs: Frames, k: Key)
    requires !Resident(fs, k)
    ensures forall f | f in fs :: fs[f].key != k
  {
  }

  lemma ContentsAt(fs: Frames, disk: map<Key, nat>, f: Fid)
    requires UniqueKeys(fs) && f in fs
    ensures Contents(fs, disk, fs[f].key) == Some(fs[f].data)
  {
  }

  /** A page whose frames, if any, and disk page are the same reads the same. */
  lemma ContentsKept(fs: Frames, gs: Frames, disk: map<Key, nat>, store: map<Key, nat>, k: Key)
    requires UniqueKeys(fs) && UniqueKeys(gs)
    requires k in disk <==> k in store
    requires k in disk ==> disk[k] == store[k]
    requires forall f | f in fs && fs[f].key == k :: f in gs && gs[f].key == k && gs[f].data == fs[f].data
    requires forall f | f in gs && gs[f].key == k :: f in fs && fs[f].key == k
    ensures Contents(gs, store, k) == Contents(fs, disk, k)
  {
    if f :| f in fs && fs[f].key == k {
      ContentsAt(fs, disk, f);
      ContentsAt(gs, store, f);
    }
  }

  lemma SameItself(fs: Frames, disk: map<Key, nat>, kinds: map<nat, Kind>)
    ensures SameFiles(fs, disk, fs, disk, kinds)
  {
  }

  lemma SameTrans(fs: Frames, disk: map<Key, nat>, gs: Frames, store: map<Key, nat>, kinds: map<nat, Kind>,
                  hs: Frames, last: map<Key, nat>)
    requires SameFiles(fs, disk, gs, store, kinds) && SameFiles(gs, store, hs, last, kinds)
    ensures SameFiles(fs, disk, hs, last, kinds)
  {
  }

  lemma SameData(fs: Frames, gs: Frames, disk: map<Key, nat>, kinds: map<nat, Kind>)
    requires UniqueKeys(fs) && gs.Keys == fs.Keys
    requires forall f | f in fs :: gs[f].key == fs[f].key && gs[f].data == fs[f].data
    ensures SameFiles(fs, disk, gs, disk, kinds)
  {
    forall k: Key | IsFile(kinds, k.obj)
      ensures Contents(gs, disk, k) == Contents(fs, disk, k)
    {
      ContentsKept(fs, gs, disk, disk, k);
    }
  }

  lemma WrittenOk(fs: Frames, kinds: map<nat, Kind>, disk: map<Key, nat>, f: Fid, dirty: bool, data: nat)
    requires UniqueKeys(fs) && Stored(fs, kinds, disk) && f in fs
    ensures var gs := Marked(fs, f, dirty, data);
            && Contents(gs, disk, fs[f].key) == Some(data)
            && (forall k | k != fs[f].key :: Contents(gs, disk, k) == Contents(fs, disk, k))
            && (Stored(gs, kinds, disk) <==> FrameStored(gs[f], kinds, disk))
            && fs[f].key.obj in kinds && (IsFile(kinds, fs[f].key.obj) ==> fs[f].key in disk)
            && (!IsFile(kinds, fs[f].key.obj) ==> fs[f].pins > 0)
  {
    var gs := Marked(fs, f, dirty, data);
    ContentsAt(gs, disk, f);
    forall k | k != fs[f].key
      ensures Contents(gs, disk, k) == Contents(fs, disk, k)
    {
      ContentsKept(fs, gs, disk, disk, k);
    }
    assert FrameStored(fs[f], kinds, disk);
    assert forall g | g in gs && g != f :: gs[g] == fs[g];
  }

  /** Cleaning puts on disk what the page reads. */
  lemma CleanedOk(fs: Frames, kinds: map<nat, Kind>, disk: map<Key, nat>, f: Fid)
    requires UniqueKeys(fs) && f in fs
    ensures var store := if IsFile(kinds, fs[f].key.obj) then disk[fs[f].key := fs[f].data] else disk;
            && SameFiles(fs, disk, Cleaned(fs, f), store, kinds)
            && (Stored(fs, kinds, disk) ==> Stored(Cleaned(fs, f), kinds, store))
  {
    var gs := Cleaned(fs, f);
    var store := if IsFile(kinds, fs[f].key.obj) then disk[fs[f].key := fs[f].data] else disk;
    forall k: Key | IsFile(kinds, k.obj)
      ensures Contents(gs, store, k) == Contents(fs, disk, k)
    {
      if k == fs[f].key {
        ContentsAt(fs, disk, f);
        ContentsAt(gs, store, f);
      } else {
        ContentsKept(fs, gs, disk, store, k);
      }
    }
    if Stored(fs, kinds, disk) {
      forall g | g in gs
        ensures FrameStored(gs[g], kinds, store)
      {
        assert FrameStored(fs[g], kinds, disk);
      }
    }
  }

  /** Only file pages are on the allocated list, and the clean ones are on disk. */
  lemma UnpinnedIsFile(fs: Frames, kinds: map<nat, Kind>, disk: map<Key, nat>, f: Fid)
    requires Stored(fs, kinds, disk) && f in fs && fs[f].pins == 0
    ensures IsFile(kinds, fs[f].key.obj) && (!fs[f].dirty ==> FrameOnDisk(fs[f], disk))
  {
    assert FrameStored(fs[f], kinds, disk);
  }

  lemma UnpinnedOnDisk(fs: Frames, kinds: map<nat, Kind>, disk: map<Key, nat>, f: Fid)
    requires Stored(fs, kinds, disk) && f in fs && fs[f].pins == 0
    ensures fs[f].key in disk && (!fs[f].dirty ==> disk[fs[f].key] == fs[f].data)
  {
    assert FrameStored(fs[f], kinds, disk);
  }

  predicate FrameOnDisk(x: PFrame, disk: map<Key, nat>) {
    x.key in disk && disk[x.key] == x.data
  }

  /** pframe_free leaves every file page as it reads exactly if the frame is of no file or on disk as it is. */
  lemma FreedFiles(fs: Frames, kinds: map<nat, Kind>, disk: map<Key, nat>, f: Fid)
    requires UniqueKeys(fs) && f in fs
    ensures SameFiles(fs, disk, fs - {f}, disk, kinds) <==>
            !IsFile(kinds, fs[f].key.obj) || FrameOnDisk(fs[f], disk)
    ensures Stored(fs, kinds, disk) ==> Stored(fs - {f}, kinds, disk)
  {
    ContentsAt(fs, disk, f);
    forall k: Key | k != fs[f].key
      ensures Contents(fs - {f}, disk, k) == Contents(fs, disk, k)
    {
      ContentsKept(fs, fs - {f}, disk, disk, k);
    }
    assert forall g | g in fs - {f} :: fs[g].key != fs[f].key;
    if Stored(fs, kinds, disk) {
      assert forall g | g in fs - {f} :: FrameStored(fs[g], kinds, disk);
    }
  }

  /** Pins matter only to pages that are nowhere else: these need one. */
  lemma RepinStored(fs: Frames, kinds: map<nat, Kind>, disk: map<Key, nat>, f: Fid, n: nat)
    requires f in fs
    ensures Stored(fs, kinds, disk) ==>
              (Stored(Repinned(fs, f, n), kinds, disk) <==> IsFile(kinds, fs[f].key.obj) || n > 0)
  {
    var gs := Repinned(fs, f, n);
    if Stored(fs, kinds, disk) {
      assert FrameStored(fs[f], kinds, disk);
      assert forall g | g in gs && g != f :: gs[g] == fs[g];
      assert Stored(gs, kinds, disk) <==> FrameStored(gs[f], kinds, disk);
    }
  }

  /** The disk once the frame was cleaned, if it is dirty. */
  function CleanedDisk(x: PFrame, kinds: map<nat, Kind>, disk: map<Key, nat>): map<Key, nat> {
    if x.dirty && IsFile(kinds, x.key.obj) then disk[x.key := x.data] else disk
  }

  /** A write to a file page is still read after its frame was cleaned if dirty, and freed, exactly if the
      frame was dirty before, or pframe_dirty succeeded, or the page was like this on disk. */
  lemma WriteSurvives(fs: Frames, kinds: map<nat, Kind>, disk: map<Key, nat>, f: Fid, ok: bool, data: nat)
    requires UniqueKeys(fs) && f in fs && IsFile(kinds, fs[f].key.obj)
    ensures var gs, k := Marked(fs, f, fs[f].dirty || ok, data), fs[f].key;
            Contents(gs - {f}, CleanedDisk(gs[f], kinds, disk), k) == Some(data) <==>
            fs[f].dirty || ok || (k in disk && disk[k] == data)
  {
    var gs: Frames := Marked(fs, f, fs[f].dirty || ok, data);
    NoFrame(gs - {f}, CleanedDisk(gs[f], kinds, disk), fs[f].key);
  }

  lemma NoFrame(fs: Frames, disk: map<Key, nat>, k: Key)
    requires forall f | f in fs :: fs[f].key != k
    ensures Contents(fs, disk, k) == if k in disk then Some(disk[k]) else None
  {
  }

  /** So does taking away the frames of an object that is no file. */
  lemma OthersGone(fs: Frames, disk: map<Key, nat>, kinds: map<nat, Kind>, o: nat)
    requires UniqueKeys(fs) && !IsFile(kinds, o)
    ensures SameFiles(fs, disk, fs - Of(fs, o), disk, kinds)
    ensures Stored(fs, kinds, disk) ==> Stored(fs - Of(fs, o), kinds, disk)
  {
    forall k: Key | IsFile(kinds, k.obj)
      ensures Contents(fs - Of(fs, o), disk, k) == Contents(fs, disk, k)
    {
      ContentsKept(fs, fs - Of(fs, o), disk, disk, k);
    }
  }

  lemma AddOk(fs: Frames, size: nat, l: AllLists, next: Fid, stamp: map<Fid, nat>, clock: nat,
              kinds: map<nat, Kind>, disk: map<Key, nat>, o: nat, kind: Kind)
    requires CacheOk(fs, size, l, next, stamp, clock) && Stored(fs, kinds, disk) && o !in l.res && o !in kinds
    ensures CacheOk(fs, size, l.(res := l.res[o := []], nres := l.nres[o := 0]), next, stamp, clock)
    ensures Stored(fs, kinds[o := kind], disk)
  {
    assert Of(fs, o) == {};
    assert forall f | f in fs :: FrameStored(fs[f], kinds, disk);
  }

  lemma OkUnique(fs: Frames, size: nat, l: AllLists, next: Fid, stamp: map<Fid, nat>, clock: nat)
    requires CacheOk(fs, size, l, next, stamp, clock)
    ensures UniqueKeys(fs)
  {
  }

  lemma OkListed(fs: Frames, size: nat, l: AllLists, next: Fid, stamp: map<Fid, nat>, clock: nat, f: Fid)
    requires CacheOk(fs, size, l, next, stamp, clock) && f in l.alloc
    ensures f in fs && fs[f].pins == 0 && NoDup(l.alloc)
  {
    assert f in Unpinned(fs);
  }

  function Cleaned(fs: Frames, f: Fid): Frames
    requires f in fs
  {
    Marked(fs, f, false, fs[f].data)
  }

  function Marked(fs: Frames, f: Fid, dirty: bool, data: nat): Frames
    requires f in fs
  {
    fs[f := PFrame(fs[f].key, fs[f].pins, dirty, data)]
  }

  lemma MarkOk(fs: Frames, size: nat, l: AllLists, next: Fid, stamp: map<Fid, nat>, clock: nat, f: Fid,
               dirty: bool, data: nat)
    requires CacheOk(fs, size, l, next, stamp, clock) && f in fs
    ensures CacheOk(Marked(fs, f, dirty, data), size, l, next, stamp, clock)
  {
    var gs := Marked(fs, f, dirty, data);
    SameKeys(fs, gs, size, l.chains, l.res, l.nres);
    assert Unpinned(gs) == Unpinned(fs) && Pinned(gs) == Pinned(fs);
  }

  lemma OkObject(fs: Frames, size: nat, l: AllLists, next: Fid, stamp: map<Fid, nat>, clock: nat, o: nat, f: Fid)
    requires CacheOk(fs, size, l, next, stamp, clock) && o in l.res
    ensures f in l.res[o] <==> f in Of(fs, o)
    ensures NoDup(l.res[o])
  {
  }

  /** After k frames were reclaimed from the front of the list a0: the rest is there with its data, and
      what was reclaimed is on disk. */
  ghost predicate Reclaimed(fs0: Frames, a0: seq<Fid>, k: nat, fs: Frames, disk: map<Key, nat>) {
    && k <= |a0|
    && (forall f :: f in fs <==> f in fs0 && f !in a0[..k])
    && (forall f | f in fs :: fs[f].key == fs0[f].key && fs[f].pins == fs0[f].pins && fs[f].data == fs0[f].data)
    && (forall f | f in fs0 && f in a0[..k] :: fs0[f].key in disk && disk[fs0[f].key] == fs0[f].data)
  }

  lemma NothingReclaimed(fs: Frames, a: seq<Fid>, disk: map<Key, nat>)
    ensures Reclaimed(fs, a, 0, fs, disk)
  {
    assert a[..0] == [];
  }

  lemma ReclaimClean(fs0: Frames, a0: seq<Fid>, k: nat, fs: Frames, disk: map<Key, nat>, f: Fid)
    requires Reclaimed(fs0, a0, k, fs, disk) && UniqueKeys(fs0) && f in fs
    ensures Reclaimed(fs0, a0, k, Cleaned(fs, f), disk[fs[f].key := fs[f].data])
  {
  }

  lemma ReclaimFree(fs0: Frames, a0: seq<Fid>, k: nat, fs: Frames, disk: map<Key, nat>)
    requires Reclaimed(fs0, a0, k, fs, disk) && k < |a0|
    requires a0[k] in fs && FrameOnDisk(fs[a0[k]], disk)
    ensures Reclaimed(fs0, a0, k + 1, fs - {a0[k]}, disk)
  {
    assert a0[..k + 1] == a0[..k] + [a0[k]];
  }

  lemma WithoutHead(s: seq<nat>)
    requires s != []
    ensures Without(s, s[0]) == s[1..]
  {
  }

  /** Number of dirty frames on a list. */
  function DirtyCount(fs: Frames, s: seq<Fid>): nat {
    if s == [] then 0 else DirtyCount(fs, s[1..]) + if s[0] in fs && fs[s[0]].dirty then 1 else 0
  }

  /** A success takes one dirty frame off the count. */
  lemma {:induction false} CleaningCounts(fs: Frames, s: seq<Fid>, f: Fid)
    requires f in fs && fs[f].dirty
    ensures DirtyCount(Cleaned(fs, f), s) <= DirtyCount(fs, s)
    ensures f in s ==> DirtyCount(Cleaned(fs, f), s) < DirtyCount(fs, s)
  {
    if s != [] {
      CleaningCounts(fs, s[1..], f);
    }
  }

  lemma {:induction false} NoneLeft(fs: Frames, s: seq<Fid>, f: Fid)
    requires f in s && f in fs && fs[f].dirty
    ensures DirtyCount(fs, s) > 0 && Successes([]) == 0
  {
    if s[0] != f { NoneLeft(fs, s[1..], f); }
  }

  /** Reclaiming a clean head leaves the count of the rest. */
  lemma CountTail(fs: Frames, s: seq<Fid>)
    requires NoDup(s) && s != [] && s[0] in fs && !fs[s[0]].dirty
    ensures DirtyCount(fs - {s[0]}, s[1..]) == DirtyCount(fs, s)
  {
    CountOthers(fs, s[1..], s[0]);
  }

  lemma {:induction false} CountOthers(fs: Frames, s: seq<Fid>, f: Fid)
    requires f !in s
    ensures DirtyCount(fs - {f}, s) == DirtyCount(fs, s)
  {
    if s != [] {
      CountOthers(fs, s[1..], f);
    }
  }

  function Successes(results: seq<bool>): nat {
    if results == [] then 0 else Successes(results[1..]) + if results[0] then 1 else 0
  }

  lemma SuccessesAt(results: seq<bool>, i: nat)
    requires i < |results|
    ensures Successes(results[i..]) == Successes(results[i + 1..]) + if results[i] then 1 else 0
  {
    assert results[i..][1..] == results[i + 1..];
  }

  /** A new frame, listed everywhere it belongs. */
  lemma AddLists(fs: Frames, f: Fid, x: PFrame, size: nat, chains: seq<seq<Fid>>, res: map<nat, seq<Fid>>,
      nres: map<nat, int>,
                 alloc: seq<Fid>, nalloc: int, pinned: seq<Fid>, npinned: int)
    requires ChainsOk(fs, size, chains) && ObjectsOk(fs, res, nres) &&
             QueuesOk(fs, alloc, nalloc, pinned, npinned) && UniqueKeys(fs)
    requires f !in fs && x.pins == 0 && x.key.obj in res && forall g | g in fs :: fs[g].key != x.key
    ensures var b, o := Hash(size, x.key), x.key.obj;
            && ChainsOk(fs[f := x], size, chains[b := [f] + chains[b]])
            && ObjectsOk(fs[f := x], res[o := [f] + res[o]], nres[o := nres[o] + 1])
            && QueuesOk(fs[f := x], alloc + [f], nalloc + 1, pinned, npinned) && UniqueKeys(fs[f := x])
    ensures f !in alloc
  {
    var gs, b, o := fs[f := x], Hash(size, x.key), x.key.obj;
    forall c | 0 <= c < size
      ensures Enum(chains[b := [f] + chains[b]][c], InChain(gs, size, c))
    {
      assert InChain(gs, size, c) == InChain(fs, size, c) + if c == b then {f} else {};
      if c == b { EnumAdd(chains[b], InChain(fs, size, b), f); }
    }
    forall c | c in res
      ensures Enum(res[o := [f] + res[o]][c], Of(gs, c))
    {
      assert Of(gs, c) == Of(fs, c) + if c == o then {f} else {};
      if c == o { EnumAdd(res[o], Of(fs, o), f); }
    }
    assert Unpinned(gs) == Unpinned(fs) + {f} && Pinned(gs) == Pinned(fs);
    EnumAdd(alloc, Unpinned(fs), f);
  }

  /** A frame gone, from everywhere it was listed. */
  lemma DropLists(fs: Frames, f: Fid, size: nat, chains: seq<seq<Fid>>, res: map<nat, seq<Fid>>, nres: map<nat, int>,
                  alloc: seq<Fid>, nalloc: int, pinned: seq<Fid>, npinned: int)
    requires ChainsOk(fs, size, chains) && ObjectsOk(fs, res, nres) &&
             QueuesOk(fs, alloc, nalloc, pinned, npinned) && UniqueKeys(fs)
    requires f in fs && fs[f].pins == 0
    ensures fs[f].key.obj in res && fs[f].key.obj in nres
    ensures var b, o := Hash(size, fs[f].key), fs[f].key.obj;
            && ChainsOk(fs - {f}, size, chains[b := Without(chains[b], f)])
            && ObjectsOk(fs - {f}, res[o := Without(res[o], f)], nres[o := nres[o] - 1])
            && QueuesOk(fs - {f}, Without(alloc, f), nalloc - 1, pinned, npinned) && UniqueKeys(fs - {f})
  {
    var gs, b, o := fs - {f}, Hash(size, fs[f].key), fs[f].key.obj;
    forall c | 0 <= c < size
      ensures Enum(chains[b := Without(chains[b], f)][c], InChain(gs, size, c))
    {
      assert InChain(gs, size, c) == InChain(fs, size, c) - if c == b then {f} else {};
      if c == b { EnumWithout(chains[b], InChain(fs, size, b), f); }
    }
    forall c | c in res
      ensures Enum(res[o := Without(res[o], f)][c], Of(gs, c)) &&
              nres[o := nres[o] - 1][c] == |res[o := Without(res[o], f)][c]|
    {
      assert Of(gs, c) == Of(fs, c) - if c == o then {f} else {};
      if c == o { EnumWithout(res[o], Of(fs, o), f); }
    }
    assert Unpinned(gs) == Unpinned(fs) - {f} && Pinned(gs) == Pinned(fs);
    EnumWithout(alloc, Unpinned(fs), f);
  }
}
