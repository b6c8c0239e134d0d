/** What the pages show while frames are filled, copied, written and freed under the busy/wait protocol:
    the first filled frame of the chain of objects, else what is on disk. */
module Contents {
  import opened Wrappers
  import opened Words
  import opened Busy

  /** What the frame of a page holds, once it is filled. */
  ghost function Held(s: State, key: Key): Option<nat> {
    if f: Fid :| f in s.frames && s.frames[f].key == key && s.frames[f].filled then Some(s.frames[f].data) else None
  }

  function Chain(s: State, o: nat): seq<nat> {
    [o] + Below(s, o)
  }

  ghost function ShownIn(s: State, chain: seq<nat>, page: nat): nat
    requires chain != []
  {
    var key := Key(chain[0], page);
    if Held(s, key).Some? then Held(s, key).value
    else if |chain| == 1 then Store(s, key)
    else ShownIn(s, chain[1..], page)
  }

  ghost function Shown(s: State, key: Key): nat {
    ShownIn(s, Chain(s, key.obj), key.page)
  }

  ghost predicate SameShown(s: State, r: State) {
    forall key :: Shown(r, key) == Shown(s, key)
  }

  // ----- Steps that go wrong -----

  /** The loop of a shadow fill comes upon a frame that is still being filled, and what it copies is not
      what the page shows. */
  ghost predicate CopiesWrong(s: State, e: Event)
    requires Enabled(s, e)
  {
    && e.Scan? && e.source.Some? && !s.frames[e.source.value].filled
    && s.frames[e.source.value].data != Shown(s, s.frames[s.threads[e.t].pc.frame].key)
  }

  /** A frame is freed although neither disk nor an object below has what it holds. */
  ghost predicate Drops(s: State, e: Event)
    requires Enabled(s, e)
  {
    e.Release? && s.frames[e.f].data != Shown(Free(s, e.f), s.frames[e.f].key)
  }

  /** Thread t is in the fill of a shadow page and gets the bottom page k for it. */
  predicate GetsUnder(s: State, t: Tid, k: Key) {
    && t in s.threads && s.threads[t].outer.Some? && s.threads[t].outer.value in s.frames
    && var x := s.frames[s.threads[t].outer.value];
       IsShadow(s, x.key.obj) && BottomKey(s, x.key) == k
  }

  /** The page a write goes to. */
  ghost function Target(s: State, e: Event): Key
    requires Enabled(s, e) && e.Write?
  {
    s.frames[s.threads[e.t].pc.frame].key
  }

  /** The object x holds the page between a shadow page, for which t gets the page k, and k itself, and it
      holds something else than d. */
  ghost predicate Differs(s: State, t: Tid, k: Key, x: nat, d: nat) {
    && GetsUnder(s, t, k) && x != k.obj
    && x in s.below[s.frames[s.threads[t].outer.value].key.obj]
    && Held(s, Key(x, k.page)).Some? && Held(s, Key(x, k.page)).value != d
  }

  /** A bottom page is written while a shadow fill is getting it, and an object between holds another page. */
  ghost predicate Disturbs(s: State, e: Event)
    requires Enabled(s, e)
  {
    e.Write? && exists t, x :: Differs(s, t, Target(s, e), x, e.data)
  }

  ghost predicate Proper(s: State, e: Event)
    requires Enabled(s, e)
  {
    !CopiesWrong(s, e) && !Drops(s, e) && !Disturbs(s, e)
  }

  // ----- The invariant of fills inside fills -----

  /** Frames that appear under a shadow page hold what the bottom page shows. */
  ghost predicate SettledAt(s: State, key: Key)
    requires IsShadow(s, key.obj)
  {
    forall x | x in s.below[key.obj] && Held(s, Key(x, key.page)).Some? ::
      Held(s, Key(x, key.page)).value == Shown(s, BottomKey(s, key))
  }

  /** That is so for every shadow page whose fill is getting the bottom page. */
  ghost predicate Settled(s: State) {
    forall t, k | GetsUnder(s, t, k) :: SettledAt(s, s.frames[s.threads[t].outer.value].key)
  }

  // ----- Chains -----

  lemma HeldAt(s: State, f: Fid)
    requires OneFrameEach(s) && f in s.frames && s.frames[f].filled
    ensures Held(s, s.frames[f].key) == Some(s.frames[f].data)
  {
  }

  lemma NotHeld(s: State, key: Key)
    requires forall f | f in s.frames && s.frames[f].key == key :: !s.frames[f].filled
    ensures Held(s, key) == None
  {
  }

  /** From where a chain meets an object, it goes on as the chain of that object. */
  lemma ChainRest(s: State, o: nat, i: nat)
    requires ChainsOk(s) && i < |Chain(s, o)|
    ensures Chain(s, o)[i..] == Chain(s, Chain(s, o)[i])
  {
    if i > 0 {
      assert Chain(s, o)[i] == s.below[o][i - 1];
      assert Below(s, s.below[o][i - 1]) == s.below[o][i - 1 + 1..];
      assert Chain(s, o)[i..] == [s.below[o][i - 1]] + s.below[o][i..];
    }
  }

  /** Every object of the chain leads on like that. */
  ghost predicate Coherent(s: State, chain: seq<nat>) {
    forall i | 0 <= i < |chain| :: chain[i..] == Chain(s, chain[i])
  }

  lemma ChainCoherent(s: State, o: nat)
    requires ChainsOk(s)
    ensures Coherent(s, Chain(s, o)) && Coherent(s, Below(s, o))
  {
    var c := Chain(s, o);
    forall i | 0 <= i < |c|
      ensures c[i..] == Chain(s, c[i])
    {
      ChainRest(s, o, i);
    }
    forall i | 0 <= i < |Below(s, o)|
      ensures Below(s, o)[i..] == Chain(s, Below(s, o)[i])
    {
      assert c[i + 1] == Below(s, o)[i] && c[i + 1..] == Below(s, o)[i..];
    }
  }

  lemma CoherentTail(s: State, chain: seq<nat>)
    requires Coherent(s, chain) && chain != []
    ensures Coherent(s, chain[1..]) && chain == Chain(s, chain[0])
  {
    assert chain[0..] == chain;
    forall i | 0 <= i < |chain| - 1
      ensures chain[1..][i..] == Chain(s, chain[1..][i])
    {
      assert chain[1..][i] == chain[i + 1] && chain[1..][i..] == chain[i + 1..];
    }
  }

  // ----- What a step does to what is held -----

  /** Frames hold what they held, and the disk is the same where nothing is held. */
  ghost predicate Plain(s: State, r: State) {
    && r.below == s.below
    && (forall k :: Held(r, k) == Held(s, k))
    && (forall k | Held(s, k).None? :: Store(r, k) == Store(s, k))
  }

  /** The page k comes to be held, as d. */
  ghost predicate Brings(s: State, r: State, k: Key, d: nat) {
    && r.below == s.below && Held(s, k) == None && Held(r, k) == Some(d)
    && (forall j | j != k :: Held(r, j) == Held(s, j))
    && (forall j | Held(s, j).None? :: Store(r, j) == Store(s, j))
  }

  /** The page k, which is held, changes to d. */
  ghost predicate Changes(s: State, r: State, k: Key, d: nat) {
    && r.below == s.below && Held(s, k).Some? && Held(r, k) == Some(d)
    && (forall j | j != k :: Held(r, j) == Held(s, j))
    && (forall j | Held(s, j).None? :: Store(r, j) == Store(s, j))
  }

  lemma {:induction false} PlainIn(s: State, r: State, chain: seq<nat>, page: nat)
    requires Plain(s, r) && chain != []
    ensures ShownIn(r, chain, page) == ShownIn(s, chain, page)
  {
    if |chain| > 1 { PlainIn(s, r, chain[1..], page); }
  }

  lemma PlainShown(s: State, r: State)
    requires Plain(s, r)
    ensures SameShown(s, r)
  {
    forall key
      ensures Shown(r, key) == Shown(s, key)
    {
      PlainIn(s, r, Chain(s, key.obj), key.page);
    }
  }

  /** A page that comes to be held as what it showed changes nothing, through whatever object. */
  lemma {:induction false} BringsIn(s: State, r: State, k: Key, d: nat, chain: seq<nat>, page: nat)
    requires Brings(s, r, k, d) && Coherent(s, chain) && chain != [] && d == Shown(s, k)
    ensures ShownIn(r, chain, page) == ShownIn(s, chain, page)
  {
    CoherentTail(s, chain);
    if Key(chain[0], page) != k && |chain| > 1 { BringsIn(s, r, k, d, chain[1..], page); }
  }

  lemma BringsShown(s: State, r: State, k: Key, d: nat)
    requires Brings(s, r, k, d) && ChainsOk(s)
    ensures SameShown(s, r) <==> d == Shown(s, k)
  {
    assert Shown(r, k) == d;
    if d == Shown(s, k) {
      forall key
        ensures Shown(r, key) == Shown(s, key)
      {
        ChainCoherent(s, key.obj);
        BringsIn(s, r, k, d, Chain(s, key.obj), key.page);
      }
    }
  }

  /** The first object of the chain that holds the page. */
  ghost function HolderIn(s: State, chain: seq<nat>, page: nat): Option<nat> {
    if chain == [] then None
    else if Held(s, Key(chain[0], page)).Some? then Some(chain[0])
    else HolderIn(s, chain[1..], page)
  }

  lemma {:induction false} ChangesIn(s: State, r: State, k: Key, d: nat, chain: seq<nat>, page: nat)
    requires Changes(s, r, k, d) && chain != []
    ensures ShownIn(r, chain, page) ==
            if page == k.page && HolderIn(s, chain, page) == Some(k.obj) then d else ShownIn(s, chain, page)
  {
    if |chain| > 1 { ChangesIn(s, r, k, d, chain[1..], page); }
  }

  lemma {:induction false} HolderIs(s: State, chain: seq<nat>, page: nat)
    ensures HolderIn(s, chain, page).Some? ==> HolderIn(s, chain, page).value in chain
  {
    if chain != [] { HolderIs(s, chain[1..], page); }
  }

  // ----- The effect of each step -----

  /** The same frames are filled, and hold the same. */
  ghost predicate SameFilled(s: State, r: State) {
    && OneFrameEach(s) && OneFrameEach(r)
    && (forall f | f in s.frames && s.frames[f].filled :: FilledLike(s, r, f))
    && (forall f | f in r.frames && r.frames[f].filled :: FilledLike(r, s, f))
  }

  predicate FilledLike(s: State, r: State, f: Fid)
    requires f in s.frames
  {
    f in r.frames && r.frames[f].filled && r.frames[f].key == s.frames[f].key && r.frames[f].data == s.frames[f].data
  }

  lemma SameHeld(s: State, r: State, k: Key)
    requires SameFilled(s, r)
    ensures Held(r, k) == Held(s, k)
  {
    if f :| f in s.frames && s.frames[f].key == k && s.frames[f].filled {
      assert FilledLike(s, r, f);
      HeldAt(s, f);
      HeldAt(r, f);
    } else {
      NotHeld(r, k);
    }
  }

  lemma SamePlain(s: State, r: State)
    requires SameFilled(s, r) && r.below == s.below && r.files == s.files && r.disk == s.disk
    ensures Plain(s, r)
  {
    forall k
      ensures Held(r, k) == Held(s, k)
    {
      SameHeld(s, r, k);
    }
  }

  /** Frame f is the only one that differs: it comes to be filled. */
  lemma OneBrings(s: State, r: State, f: Fid)
    requires OneFrameEach(s) && OneFrameEach(r) && r.below == s.below && r.files == s.files && r.disk == s.disk
    requires f in r.frames && r.frames[f].filled
    requires f in s.frames ==> !s.frames[f].filled && s.frames[f].key == r.frames[f].key
    requires forall g | g in s.frames && g != f && s.frames[g].filled :: FilledLike(s, r, g)
    requires forall g | g in r.frames && g != f && r.frames[g].filled :: FilledLike(r, s, g)
    ensures Brings(s, r, r.frames[f].key, r.frames[f].data)
  {
    var k := r.frames[f].key;
    HeldAt(r, f);
    NotHeld(s, k);
    forall j | j != k
      ensures Held(r, j) == Held(s, j)
    {
      OtherHeld(s, r, f, j);
    }
  }

  lemma OtherHeld(s: State, r: State, f: Fid, j: Key)
    requires OneFrameEach(s) && OneFrameEach(r)
    requires f in r.frames ==> r.frames[f].key != j
    requires f in s.frames ==> s.frames[f].key != j
    requires forall g | g in s.frames && g != f && s.frames[g].filled :: FilledLike(s, r, g)
    requires forall g | g in r.frames && g != f && r.frames[g].filled :: FilledLike(r, s, g)
    ensures Held(r, j) == Held(s, j)
  {
    if g :| g in s.frames && s.frames[g].key == j && s.frames[g].filled {
      assert FilledLike(s, r, g);
      HeldAt(s, g);
      HeldAt(r, g);
    } else {
      NotHeld(r, j);
    }
  }

  lemma EndFilled(s: State, r: State, f: Fid, x: Frame)
    requires OneFrameEach(s) && OneFrameEach(r) && f in s.frames
    requires r.frames == s.frames[f := x] || (r.frames == s.frames - {f} && !s.frames[f].filled)
    requires x.key == s.frames[f].key && x.filled == s.frames[f].filled && x.data == s.frames[f].data
    ensures SameFilled(s, r)
  {
  }

  /** The end of an operation that is no successful fill changes nothing that is held. */
  lemma EndPlain(s: State, t: Tid, ok: bool, data: nat, pins: nat)
    requires Inv(s) && FinishOk(s, t) && (Filling(s.threads[t].pc.work) ==> !ok)
    ensures Plain(s, FinishStep(s, t, ok, data, pins))
  {
    var f, work, r := s.threads[t].pc.frame, s.threads[t].pc.work, FinishStep(s, t, ok, data, pins);
    assert ThreadOk(s, t, s.threads[t]);
    FinishInv(s, t, ok, data, pins);
    assert OneFrameEach(s) && OneFrameEach(r);
    FinishFrames(s, t, ok, data, pins);
    hide Inv, FinishStep, OneFrameEach, Held;
    EndFilled(s, r, f, Done(s.frames[f], work, ok, data, pins).(waiters := {}));
    hide SameFilled, Done;
    forall k
      ensures Held(r, k) == Held(s, k)
    {
      SameHeld(s, r, k);
    }
    if work.Clean? { HeldAt(s, f); }
  }

  /** The end of a successful fill brings in its page. */
  lemma EndBrings(s: State, t: Tid, data: nat, pins: nat)
    requires Inv(s) && FinishOk(s, t) && s.threads[t].pc.work.Fill?
    ensures Brings(s, FinishStep(s, t, true, data, pins), s.frames[s.threads[t].pc.frame].key, data)
  {
    var f, r := s.threads[t].pc.frame, FinishStep(s, t, true, data, pins);
    assert ThreadOk(s, t, s.threads[t]);
    FinishInv(s, t, true, data, pins);
    assert OneFrameEach(s) && OneFrameEach(r);
    FinishFrames(s, t, true, data, pins);
    hide Inv, FinishStep;
    OneBrings(s, r, f);
  }

  /** What pframe_get may change up to the next point where it blocks. */
  ghost predicate Getting(s: State, r: State) {
    && r.below == s.below && r.files == s.files && r.disk == s.disk && s.frames.Keys <= r.frames.Keys
    && (forall f | f in s.frames :: r.frames[f] == s.frames[f].(waiters := r.frames[f].waiters))
    && (forall f | f in r.frames && f !in s.frames :: !r.frames[f].filled)
    && r.threads.Keys == s.threads.Keys
    && forall u | u in s.threads :: r.threads[u].outer == s.threads[u].outer
  }

  lemma SleepShape(s: State, t: Tid, f: Fid, want: Option<Key>)
    requires t in s.threads && f in s.frames
    ensures Getting(s, Sleep(s, t, f, want))
  {
  }

  lemma StartShape(s: State, t: Tid, x: Frame)
    requires t in s.threads && s.next !in s.frames && !x.filled
    ensures Getting(s, Start(s.(next := s.next + 1), t, s.next, x, Fill))
  {
  }

  lemma GotShape(s: State, t: Tid, pc: Pc)
    requires t in s.threads
    ensures Getting(s, SetPc(s, t, pc, Some(t)))
  {
  }

  lemma GetShape(s: State, t: Tid, key: Key, junk: nat)
    requires t in s.threads && s.next !in s.frames
    ensures Getting(s, GetStep(s, t, key, junk))
  {
    hide Getting, Sleep, Start, SetPc;
    forall f | f in s.frames
      ensures Getting(s, Sleep(s, t, f, Some(key))) && Getting(s, SetPc(s, t, Got(f, key), Some(t)))
    {
      SleepShape(s, t, f, Some(key));
      GotShape(s, t, Got(f, key));
    }
    StartShape(s, t, NewFrame(key, junk));
  }

  lemma GetPlain(s: State, t: Tid, key: Key, junk: nat)
    requires Inv(s) && Enabled(s, Get(t, key, junk))
    ensures Plain(s, Step(s, Get(t, key, junk)))
  {
    var r := GetStep(s, t, key, junk);
    GetInv(s, t, key, junk);
    assert OneFrameEach(s) && OneFrameEach(r) && s.next !in s.frames;
    hide Inv, GetStep, OneFrameEach, Plain, SameFilled;
    GetShape(s, t, key, junk);
    GetFilled(s, r);
    SamePlain(s, r);
  }

  /** Frames that only change their queue, or are new and not filled. */
  lemma GetFilled(s: State, r: State)
    requires OneFrameEach(s) && OneFrameEach(r) && s.frames.Keys <= r.frames.Keys
    requires forall f | f in s.frames :: r.frames[f] == s.frames[f].(waiters := r.frames[f].waiters)
    requires forall f | f in r.frames && f !in s.frames :: !r.frames[f].filled
    ensures SameFilled(s, r)
  {
  }

  /** What a scan copies, when the frame it finds is filled, is what is shown below. */
  lemma {:induction false} FindsShown(s: State, chain: seq<nat>, page: nat, g: Fid)
    requires OneFrameEach(s) && Finds(s, chain, page, Some(g)) && s.frames[g].filled
    ensures chain != [] && ShownIn(s, chain, page) == s.frames[g].data
  {
    var i :| 0 <= i < |chain| && chain[i] == s.frames[g].key.obj &&
             forall j | 0 <= j < i :: !Resident(s, Key(chain[j], page));
    HeldAt(s, g);
    if i > 0 {
      assert !Resident(s, Key(chain[0], page));
      NotHeld(s, Key(chain[0], page));
      assert chain[1..][i - 1] == chain[i];
      assert forall j | 0 <= j < i - 1 :: chain[1..][j] == chain[j + 1];
      assert Finds(s, chain[1..], page, Some(g));
      FindsShown(s, chain[1..], page, g);
    }
  }

  /** A page that is not held shows what is below. */
  lemma ShownBelow(s: State, key: Key)
    requires Held(s, key) == None
    ensures Shown(s, key) ==
            if IsShadow(s, key.obj) then ShownIn(s, s.below[key.obj], key.page) else Store(s, key)
  {
    assert Chain(s, key.obj)[1..] == Below(s, key.obj);
  }

  /** Where a shadow page is settled, every part of its chain shows what the bottom shows. */
  lemma {:induction false} SettledIn(s: State, key: Key, chain: seq<nat>)
    requires IsShadow(s, key.obj) && ChainsOk(s) && SettledAt(s, key)
    requires chain != [] && chain <= chain && forall x | x in chain :: x in s.below[key.obj]
    requires chain[|chain| - 1] == s.below[key.obj][|s.below[key.obj]| - 1]
    ensures ShownIn(s, chain, key.page) == Shown(s, BottomKey(s, key))
  {
    assert chain[0] in chain;
    if Held(s, Key(chain[0], key.page)).None? {
      if |chain| == 1 {
        var o := key.obj;
        assert Below(s, s.below[o][|s.below[o]| - 1]) == s.below[o][|s.below[o]| - 1 + 1..] == [];
        ShownBelow(s, BottomKey(s, key));
      } else {
        assert forall x | x in chain[1..] :: x in chain;
        SettledIn(s, key, chain[1..]);
      }
    }
  }

  /** A frame that was found filled and not busy, or being filled, is not held yet. */
  lemma FillNotHeld(s: State, f: Fid)
    requires OneFrameEach(s) && f in s.frames && !s.frames[f].filled
    ensures Held(s, s.frames[f].key) == None
  {
    NotHeld(s, s.frames[f].key);
  }

  /** What an inner pframe_get returns is what the shadow page shows. */
  lemma ReturnShown(s: State, t: Tid)
    requires Inv(s) && Settled(s) && Enabled(s, Return(t))
    ensures s.frames[s.threads[t].pc.frame].data == Shown(s, s.frames[s.threads[t].outer.value].key)
  {
    var f, g := s.threads[t].outer.value, s.threads[t].pc.frame;
    assert ThreadOk(s, t, s.threads[t]);
    var key := s.frames[f].key;
    assert s.frames[g].key == BottomKey(s, key) && s.frames[g].filled && OneFrameEach(s) && ChainsOk(s);
    assert GetsUnder(s, t, BottomKey(s, key));
    hide Inv;
    HeldAt(s, g);
    FillNotHeld(s, f);
    ShownBelow(s, key);
    SettledIn(s, key, s.below[key.obj]);
  }

  // ----- No step but a write changes what is shown -----

  /** A step that leaves what a frame holds. */
  lemma FramePlain(s: State, r: State, f: Fid)
    requires OneFrameEach(s) && r.below == s.below && r.files == s.files && r.disk == s.disk
    requires f in s.frames && f in r.frames && r.frames == s.frames[f := r.frames[f]]
    requires var x := r.frames[f];
             x.key == s.frames[f].key && x.filled == s.frames[f].filled && x.data == s.frames[f].data
    ensures Plain(s, r)
  {
    assert OneFrameEach(r);
    EndFilled(s, r, f, r.frames[f]);
    SamePlain(s, r);
  }

  lemma ThreadPlain(s: State, r: State)
    requires OneFrameEach(s) && r.below == s.below && r.files == s.files && r.disk == s.disk && r.frames == s.frames
    ensures Plain(s, r)
  {
    SamePlain(s, r);
  }

  lemma ScanShown(s: State, t: Tid, g: Fid)
    requires Inv(s) && Enabled(s, Scan(t, Some(g)))
    ensures var k, e := s.frames[s.threads[t].pc.frame].key, Scan(t, Some(g));
            && Brings(s, Step(s, e), k, s.frames[g].data)
            && (s.frames[g].data == Shown(s, k) <==> !CopiesWrong(s, e))
  {
    var f := s.threads[t].pc.frame;
    var k := s.frames[f].key;
    Blocked(s, t);
    EndBrings(s, t, s.frames[g].data, 1);
    assert ThreadOk(s, t, s.threads[t]) && OneFrameEach(s);
    hide Inv, FinishStep;
    FillNotHeld(s, f);
    ShownBelow(s, k);
    if s.frames[g].filled { FindsShown(s, s.below[k.obj], k.page, g); }
  }

  lemma ReturnBrings(s: State, t: Tid)
    requires Inv(s) && Settled(s) && Enabled(s, Return(t))
    ensures var k, d := s.frames[s.threads[t].outer.value].key, s.frames[s.threads[t].pc.frame].data;
            d == Shown(s, k) && Brings(s, Step(s, Return(t)), k, d)
  {
    var q := Resume(s, t);
    ReturnShown(s, t);
    ResumeInv(s, t);
    assert OneFrameEach(s);
    hide Inv;
    ThreadPlain(s, q);
    EndBrings(q, t, s.frames[s.threads[t].pc.frame].data, 1);
  }

  /** The end of a successful fill of a bottom page. */
  lemma EndShown(s: State, t: Tid)
    requires Inv(s) && Enabled(s, Finish(t, true)) && s.threads[t].pc.work.Fill?
    ensures var k := s.frames[s.threads[t].pc.frame].key;
            !IsShadow(s, k.obj) && Shown(s, k) == Store(s, k) && Brings(s, Step(s, Finish(t, true)), k, Store(s, k))
  {
    var f := s.threads[t].pc.frame;
    var k := s.frames[f].key;
    Blocked(s, t);
    EndBrings(s, t, Store(s, k), if k.obj !in s.files then 1 else 0);
    assert ThreadOk(s, t, s.threads[t]) && OneFrameEach(s);
    if s.threads[t].outer.Some? { InnerIsBottom(s, t); }
    hide Inv, FinishStep;
    FillNotHeld(s, f);
    ShownBelow(s, k);
  }

  /** The steps that leave everything that is held. */
  predicate IsPlain(s: State, e: Event)
    requires e.Finish? ==> e.t in s.threads && s.threads[e.t].pc.Working?
  {
    match e
    case Scan(_, source) => source.None?
    case Finish(t, ok) => !(s.threads[t].pc.work.Fill? && ok)
    case Return(_) => false
    case Release(_, _) => false
    case Write(_, _) => false
    case _ => true
  }

  lemma StepPlain(s: State, e: Event)
    requires Inv(s) && Enabled(s, e) && IsPlain(s, e)
    ensures Plain(s, Step(s, e))
  {
    assert OneFrameEach(s);
    var r := Step(s, e);
    hide Inv, Plain;
    match e
    case Get(t, key, junk) => GetPlain(s, t, key, junk);
    case Scan(_, _) => ThreadPlain(s, r);
    case Finish(t, ok) =>
      Blocked(s, t);
      var key := s.frames[s.threads[t].pc.frame].key;
      EndPlain(s, t, ok, Store(s, key), if s.threads[t].pc.work.Fill? && key.obj !in s.files then 1 else 0);
    case StartDirty(_, f) => FramePlain(s, r, f);
    case StartClean(_, f) => FramePlain(s, r, f);
    case Await(_, f) => FramePlain(s, r, f);
    case Pin(_, f) => FramePlain(s, r, f);
    case Unpin(_, f) => FramePlain(s, r, f);
    case Leave(_) => ThreadPlain(s, r);
  }

  lemma ReleaseBrings(s: State, t: Tid, f: Fid)
    requires Inv(s) && Enabled(s, Release(t, f))
    ensures var r := Step(s, Release(t, f));
            && Brings(r, s, s.frames[f].key, s.frames[f].data)
            && Shown(r, s.frames[f].key) == Shown(Free(s, f), s.frames[f].key)
  {
    var r, q := Step(s, Release(t, f)), Free(s, f);
    assert OneFrameEach(s) && s.frames[f].filled;
    hide Inv;
    assert OneFrameEach(q) && OneFrameEach(r);
    OneBrings(r, s, f);
    ThreadPlain(q, r);
    PlainShown(q, r);
  }

  /** A step that is no write leaves what every page shows exactly if it neither copies a frame that is
      still being filled, and holds something else, nor frees a frame that alone holds its page. */
  lemma StepShown(s: State, e: Event)
    requires Inv(s) && Settled(s) && Enabled(s, e) && !e.Write?
    ensures SameShown(s, Step(s, e)) <==> !CopiesWrong(s, e) && !Drops(s, e)
  {
    var r := Step(s, e);
    assert ChainsOk(s);
    hide Inv, Settled, SameShown, Plain, Brings;
    if e.Scan? && e.source.Some? {
      var k, d := s.frames[s.threads[e.t].pc.frame].key, s.frames[e.source.value].data;
      ScanShown(s, e.t, e.source.value);
      BringsShown(s, r, k, d);
    } else if e.Return? {
      var k, d := s.frames[s.threads[e.t].outer.value].key, s.frames[s.threads[e.t].pc.frame].data;
      ReturnBrings(s, e.t);
      BringsShown(s, r, k, d);
    } else if e.Finish? && e.ok && s.threads[e.t].pc.work.Fill? {
      var k := s.frames[s.threads[e.t].pc.frame].key;
      EndShown(s, e.t);
      BringsShown(s, r, k, Store(s, k));
    } else if e.Release? {
      ReleaseBrings(s, e.t, e.f);
      assert ChainsOk(r);
      BringsShown(r, s, s.frames[e.f].key, s.frames[e.f].data);
      SameBoth(s, r);
    } else {
      StepPlain(s, e);
      PlainShown(s, r);
    }
  }

  lemma SameBoth(s: State, r: State)
    ensures SameShown(s, r) <==> SameShown(r, s)
  {
  }

  /** A write changes what is shown exactly where the page written is the first that the chain holds. */
  lemma WriteShown(s: State, e: Event, key: Key)
    requires Inv(s) && Enabled(s, e) && e.Write?
    ensures Shown(Step(s, e), key) ==
            if key.page == Target(s, e).page && HolderIn(s, Chain(s, key.obj), key.page) == Some(Target(s, e).obj)
            then e.data else Shown(s, key)
    ensures Shown(Step(s, e), Target(s, e)) == e.data
  {
    var k := Target(s, e);
    WriteChanges(s, e);
    hide Inv, Step, Changes;
    ChangesIn(s, Step(s, e), k, e.data, Chain(s, key.obj), key.page);
    ChangesIn(s, Step(s, e), k, e.data, Chain(s, k.obj), k.page);
    WriteHeld(s, e);
  }

  lemma WriteChanges(s: State, e: Event)
    requires Inv(s) && Enabled(s, e) && e.Write?
    ensures Changes(s, Step(s, e), Target(s, e), e.data) && Step(s, e).below == s.below
  {
    var f, r := s.threads[e.t].pc.frame, Step(s, e);
    assert ThreadOk(s, e.t, s.threads[e.t]) && OneFrameEach(s);
    hide Inv;
    assert OneFrameEach(r);
    HeldAt(s, f);
    HeldAt(r, f);
    forall j | j != s.frames[f].key
      ensures Held(r, j) == Held(s, j)
    {
      OtherHeld(s, r, f, j);
    }
  }

  lemma WriteHeld(s: State, e: Event)
    requires Inv(s) && Enabled(s, e) && e.Write?
    ensures Held(s, Target(s, e)).Some?
  {
    assert ThreadOk(s, e.t, s.threads[e.t]);
    HeldAt(s, s.threads[e.t].pc.frame);
  }

  // ----- Every proper step keeps fills settled -----

  lemma PlainSettled(s: State, r: State, key: Key)
    requires Plain(s, r) && IsShadow(s, key.obj) && SettledAt(s, key)
    ensures SettledAt(r, key)
  {
    PlainShown(s, r);
  }

  /** The part of a chain below a shadow object that starts at one of its objects. */
  lemma PartOf(s: State, o: nat, x: nat)
    requires IsShadow(s, o) && ChainsOk(s) && x in s.below[o]
    ensures var c := Chain(s, x);
            && (forall y | y in c :: y in s.below[o])
            && c[|c| - 1] == s.below[o][|s.below[o]| - 1]
  {
    var b := s.below[o];
    var i :| 0 <= i < |b| && b[i] == x;
    assert Below(s, b[i]) == b[i + 1..];
    assert Chain(s, x) == b[i..];
  }

  lemma BringsSettled(s: State, r: State, k: Key, d: nat, key: Key)
    requires Brings(s, r, k, d) && d == Shown(s, k) && ChainsOk(s) && IsShadow(s, key.obj) && SettledAt(s, key)
    ensures SettledAt(r, key)
  {
    BringsShown(s, r, k, d);
    forall x | x in r.below[key.obj] && Held(r, Key(x, key.page)).Some?
      ensures Held(r, Key(x, key.page)).value == Shown(r, BottomKey(r, key))
    {
      if Key(x, key.page) == k {
        PartOf(s, key.obj, x);
        SettledIn(s, key, Chain(s, x));
      }
    }
  }

  lemma FreedSettled(s: State, r: State, k: Key, d: nat, key: Key)
    requires Brings(r, s, k, d) && d == Shown(r, k) && ChainsOk(r) && IsShadow(s, key.obj) && SettledAt(s, key)
    ensures SettledAt(r, key)
  {
    BringsShown(r, s, k, d);
  }

  lemma ChangesSettled(s: State, r: State, k: Key, d: nat, key: Key)
    requires Changes(s, r, k, d) && ChainsOk(s) && IsShadow(s, key.obj) && SettledAt(s, key)
    requires k.obj in s.below[key.obj] ==> k.page != key.page
    ensures SettledAt(r, key)
  {
    var b := BottomKey(s, key);
    assert b.obj in s.below[key.obj];
    PartOf(s, key.obj, b.obj);
    ChangesIn(s, r, k, d, Chain(s, b.obj), b.page);
    HolderIs(s, Chain(s, b.obj), b.page);
  }

  /** No step changes a chain or the identity of a frame, and nobody gets into an inner pframe_get. */
  ghost predicate Sided(s: State, r: State) {
    && r.below == s.below
    && (forall f | f in s.frames && f in r.frames :: r.frames[f].key == s.frames[f].key)
    && (forall u | u in r.threads && r.threads[u].outer.Some? ::
          u in s.threads && s.threads[u].outer == r.threads[u].outer)
  }

  lemma FinishSided(s: State, t: Tid, ok: bool, data: nat, pins: nat)
    requires FinishOk(s, t)
    ensures Sided(s, FinishStep(s, t, ok, data, pins))
  {
    FinishFrames(s, t, ok, data, pins);
  }

  lemma FrameSided(s: State, r: State, f: Fid, t: Tid)
    requires r.below == s.below && f in s.frames && t in s.threads && t in r.threads
    requires r.frames == s.frames - {f} || (f in r.frames && r.frames == s.frames[f := r.frames[f]])
    requires f in r.frames ==> r.frames[f].key == s.frames[f].key
    requires r.threads == s.threads[t := r.threads[t]] && r.threads[t].outer == s.threads[t].outer
    ensures Sided(s, r)
  {
  }

  lemma StepSided(s: State, e: Event)
    requires Inv(s) && Enabled(s, e) && !(e.Scan? && e.source.None?)
    ensures Sided(s, Step(s, e))
  {
    assert s.next !in s.frames;
    if e.Scan? || e.Finish? { Blocked(s, e.t); }
    if e.Return? { ResumeInv(s, e.t); }
    hide Inv, GetStep, FinishStep, Sided;
    var r := Step(s, e);
    match e
    case Get(t, key, junk) =>
      GetShape(s, t, key, junk);
      GetSided(s, r);
    case Scan(t, source) => FinishSided(s, t, true, s.frames[source.value].data, 1);
    case Return(t) =>
      FinishSided(Resume(s, t), t, true, s.frames[s.threads[t].pc.frame].data, 1);
      ResumeSided(s, t, r);
    case Finish(t, ok) =>
      var key := s.frames[s.threads[t].pc.frame].key;
      FinishSided(s, t, ok, Store(s, key), if s.threads[t].pc.work.Fill? && key.obj !in s.files then 1 else 0);
    case StartDirty(t, f) => FrameSided(s, r, f, t);
    case StartClean(t, f) => FrameSided(s, r, f, t);
    case Await(t, f) => FrameSided(s, r, f, t);
    case Release(t, f) => FrameSided(s, r, f, t);
    case Pin(t, f) => FrameSided(s, r, f, t);
    case Unpin(t, f) => FrameSided(s, r, f, t);
    case Write(t, _) => FrameSided(s, r, s.threads[t].pc.frame, t);
    case Leave(t) => LeaveSided(s, t);
  }

  lemma LeaveSided(s: State, t: Tid)
    requires t in s.threads
    ensures Sided(s, SetPc(s, t, Idle, None))
  {
  }

  lemma GetSided(s: State, r: State)
    requires Getting(s, r)
    ensures Sided(s, r)
  {
  }

  lemma ResumeSided(s: State, t: Tid, r: State)
    requires t in s.threads && s.threads[t].outer.Some? && Sided(Resume(s, t), r)
    ensures Sided(s, r)
  {
  }

  /** Who is in an inner pframe_get was so before, for the same page, or begins now. */
  lemma OuterKept(s: State, e: Event, u: Tid, k: Key)
    requires Inv(s) && Enabled(s, e) && GetsUnder(Step(s, e), u, k) && e != Scan(u, None)
    ensures GetsUnder(s, u, k)
    ensures var r := Step(s, e);
            && r.threads[u].outer == s.threads[u].outer
            && r.frames[r.threads[u].outer.value].key == s.frames[r.threads[u].outer.value].key
  {
    if e.Scan? && e.source.None? {
      ScanKept(s, e, u);
    } else {
      StepSided(s, e);
    }
    assert ThreadOk(s, u, s.threads[u]);
    hide Inv, Step;
  }

  lemma ScanKept(s: State, e: Event, u: Tid)
    requires Enabled(s, e) && e.Scan? && e.source.None? && u != e.t
    ensures var r := Step(s, e);
            r.below == s.below && r.frames == s.frames && (u in r.threads <==> u in s.threads) &&
            (u in s.threads ==> r.threads[u] == s.threads[u])
  {
  }

  /** A write goes to no page under a shadow page being filled, but the bottom page. */
  lemma WriteApart(s: State, e: Event, t: Tid, k: Key)
    requires Inv(s) && Enabled(s, e) && e.Write? && GetsUnder(s, t, k) && k != Target(s, e)
    ensures var key := s.frames[s.threads[t].outer.value].key;
            Target(s, e).obj in s.below[key.obj] ==> Target(s, e).page != key.page
  {
    var key, w := s.frames[s.threads[t].outer.value].key, Target(s, e);
    assert ChainsOk(s);
    hide Inv;
    if w.obj in s.below[key.obj] && !IsShadow(s, w.obj) { BottomLast(s, key.obj, w.obj); }
  }

  /** After a write to the bottom page, the fill that is getting it is settled if no object between holds
      anything else. */
  lemma UnderSettled(s: State, e: Event, t: Tid)
    requires Inv(s) && Enabled(s, e) && e.Write? && GetsUnder(s, t, Target(s, e))
    ensures var r, key := Step(s, e), s.frames[s.threads[t].outer.value].key;
            IsShadow(r, key.obj) && (SettledAt(r, key) <==> forall x :: !Differs(s, t, Target(s, e), x, e.data))
  {
    var r, k, key := Step(s, e), Target(s, e), s.frames[s.threads[t].outer.value].key;
    WriteChanges(s, e);
    WriteShown(s, e, k);
    hide Inv, Step, Shown;
    assert BottomKey(r, key) == k && Shown(r, k) == e.data;
    if x :| Differs(s, t, k, x, e.data) {
      assert Held(r, Key(x, key.page)) == Held(s, Key(x, key.page));
    } else {
      forall x | x in r.below[key.obj] && Held(r, Key(x, key.page)).Some?
        ensures Held(r, Key(x, key.page)).value == e.data
      {
        assert !Differs(s, t, k, x, e.data);
      }
    }
  }

  /** The only object of a chain that shadows nothing is the last. */
  lemma BottomLast(s: State, o: nat, x: nat)
    requires IsShadow(s, o) && ChainsOk(s) && x in s.below[o] && !IsShadow(s, x)
    ensures x == s.below[o][|s.below[o]| - 1]
  {
    var b := s.below[o];
    var i :| 0 <= i < |b| && b[i] == x;
    assert Below(s, b[i]) == b[i + 1..];
  }

  lemma BeginsSettled(s: State, t: Tid)
    requires Inv(s) && Enabled(s, Scan(t, None))
    ensures var key := s.frames[s.threads[t].pc.frame].key; SettledAt(s, key)
  {
    var key := s.frames[s.threads[t].pc.frame].key;
    hide Inv;
    forall x | x in s.below[key.obj]
      ensures Held(s, Key(x, key.page)) == None
    {
      var i :| 0 <= i < |s.below[key.obj]| && s.below[key.obj][i] == x;
      assert !Resident(s, Key(s.below[key.obj][i], key.page));
      NotHeld(s, Key(x, key.page));
    }
  }

  lemma StepSettledAt(s: State, e: Event, t: Tid, k: Key)
    requires Inv(s) && Enabled(s, e) && Settled(s) && Proper(s, e) && GetsUnder(s, t, k)
    ensures IsShadow(Step(s, e), s.frames[s.threads[t].outer.value].key.obj)
    ensures SettledAt(Step(s, e), s.frames[s.threads[t].outer.value].key)
  {
    var key, r := s.frames[s.threads[t].outer.value].key, Step(s, e);
    assert SettledAt(s, key) && ChainsOk(s);
    hide Inv, SettledAt, Plain, Brings, Changes;
    SameBelow(s, e);
    if e.Scan? && e.source.Some? {
      ScanShown(s, e.t, e.source.value);
      BringsSettled(s, r, s.frames[s.threads[e.t].pc.frame].key, s.frames[e.source.value].data, key);
    } else if e.Return? {
      ReturnBrings(s, e.t);
      BringsSettled(s, r, s.frames[s.threads[e.t].outer.value].key, s.frames[s.threads[e.t].pc.frame].data, key);
    } else if e.Finish? && e.ok && s.threads[e.t].pc.work.Fill? {
      var j := s.frames[s.threads[e.t].pc.frame].key;
      EndShown(s, e.t);
      BringsSettled(s, r, j, Store(s, j), key);
    } else if e.Release? {
      ReleaseBrings(s, e.t, e.f);
      FreedSettled(s, r, s.frames[e.f].key, s.frames[e.f].data, key);
    } else if e.Write? {
      if k == Target(s, e) {
        UnderSettled(s, e, t);
      } else {
        WriteChanges(s, e);
        WriteApart(s, e, t, k);
        ChangesSettled(s, r, Target(s, e), e.data, key);
      }
    } else {
      StepPlain(s, e);
      PlainSettled(s, r, key);
    }
  }

  lemma SameBelow(s: State, e: Event)
    requires Inv(s) && Enabled(s, e)
    ensures Step(s, e).below == s.below
  {
    if !(e.Scan? && e.source.None?) {
      StepSided(s, e);
      hide Step;
    }
    hide Inv;
  }

  lemma StepSettled(s: State, e: Event)
    requires Inv(s) && Enabled(s, e) && Settled(s) && Proper(s, e)
    ensures Settled(Step(s, e))
  {
    var r := Step(s, e);
    hide Inv, Settled, SettledAt, Proper, Enabled;
    forall t, k | GetsUnder(r, t, k)
      ensures SettledAt(r, r.frames[r.threads[t].outer.value].key)
    {
      if e == Scan(t, None) {
        BeginsSettled(s, t);
        StepPlain(s, e);
        var f := s.threads[t].pc.frame;
        assert r.frames == s.frames && r.threads[t].outer == Some(f);
        PlainSettled(s, r, s.frames[f].key);
      } else {
        OuterKept(s, e, t, k);
        StepSettledAt(s, e, t, k);
      }
    }
    SettledBy(r);
  }

  /** Such a write leaves the fill unsettled. */
  lemma DisturbedSettled(s: State, e: Event)
    requires Inv(s) && Enabled(s, e) && Disturbs(s, e)
    ensures !Settled(Step(s, e))
  {
    hide Inv, Step, Enabled, SettledAt, Held, Target;
    var k, r := Target(s, e), Step(s, e);
    var t, x :| Differs(s, t, k, x, e.data);
    UnderSettled(s, e, t);
    WriteSides(s, e);
    assert GetsUnder(r, t, k);
  }

  lemma WriteSides(s: State, e: Event)
    requires Enabled(s, e) && e.Write?
    ensures var r := Step(s, e);
            && r.threads == s.threads && r.below == s.below && r.frames.Keys == s.frames.Keys
            && forall f | f in s.frames :: r.frames[f].key == s.frames[f].key
  {
  }

  /** Fills inside fills stay settled over a step that copies and frees nothing wrongly, exactly if it is no
      such write. */
  lemma StepSettledExactly(s: State, e: Event)
    requires Inv(s) && Enabled(s, e) && Settled(s) && !CopiesWrong(s, e) && !Drops(s, e)
    ensures Settled(Step(s, e)) <==> !Disturbs(s, e)
  {
    hide Inv, Settled, Step, Enabled, Disturbs, CopiesWrong, Drops;
    if Disturbs(s, e) { DisturbedSettled(s, e); } else { StepSettled(s, e); }
  }

  lemma SettledBy(s: State)
    requires forall t, k | GetsUnder(s, t, k) :: SettledAt(s, s.frames[s.threads[t].outer.value].key)
    ensures Settled(s)
  {
  }

  // ----- Runs -----

  /** Every event of the run that happens is proper at its point. */
  ghost predicate ProperRun(s: State, es: seq<Event>) {
    forall i | 0 <= i < |es| :: Enabled(Run(s, es[..i]), es[i]) ==> Proper(Run(s, es[..i]), es[i])
  }

  /** No event of the run writes to a page that is on the chain of the page key. */
  ghost predicate Unwritten(s: State, es: seq<Event>, key: Key) {
    forall i | 0 <= i < |es| :: !WritesOn(Run(s, es[..i]), es[i], key)
  }

  ghost predicate WritesOn(s: State, e: Event, key: Key) {
    Enabled(s, e) && e.Write? && Target(s, e).page == key.page && Target(s, e).obj in Chain(s, key.obj)
  }

  /** Over every proper run, what a page shows changes only by writes to its chain. */
  lemma {:induction false} RunShown(s: State, es: seq<Event>, key: Key)
    requires Inv(s) && Settled(s) && ProperRun(s, es) && Unwritten(s, es, key)
    ensures Inv(Run(s, es)) && Settled(Run(s, es)) && Run(s, es).below == s.below
    ensures Shown(Run(s, es), key) == Shown(s, key)
  {
    hide Inv, Settled, Shown, Enabled, Step, Proper, WritesOn;
    if es != [] {
      var n, e := |es| - 1, es[|es| - 1];
      assert forall i | 0 <= i < n :: es[..n][..i] == es[..i] && es[..n][i] == es[i];
      RunShown(s, es[..n], key);
      var r := Run(s, es[..n]);
      assert !WritesOn(r, e, key);
      if Enabled(r, e) {
        assert Proper(r, e);
        StepInv(r, e);
        StepSettled(r, e);
        SameBelow(r, e);
        ProperShown(r, e, key);
      }
    }
  }

  lemma ProperShown(s: State, e: Event, key: Key)
    requires Inv(s) && Settled(s) && Enabled(s, e) && Proper(s, e) && !WritesOn(s, e, key)
    ensures Shown(Step(s, e), key) == Shown(s, key)
  {
    if e.Write? {
      WriteShown(s, e, key);
      HolderIs(s, Chain(s, key.obj), key.page);
    } else {
      StepShown(s, e);
    }
  }

  lemma InitialSettled(s: State)
    requires Initial(s)
    ensures Inv(s) && Settled(s)
  {
    RunInv(s, []);
  }

  lemma {:induction false} RunJoin(s: State, a: seq<Event>, b: seq<Event>)
    ensures Run(s, a + b) == Run(Run(s, a), b)
  {
    if b == [] {
      assert a + b == a;
    } else {
      var n := |b| - 1;
      RunJoin(s, a, b[..n]);
      assert (a + b)[..|a| + n] == a + b[..n] && (a + b)[|a| + n] == b[n];
    }
  }

  /** Over every proper run, whatever is filled, copied, cleaned or freed meanwhile: the frame that
      pframe_get returns holds what the page showed at any earlier point since the last write to its chain. */
  lemma GetReturnsContents(s: State, a: seq<Event>, b: seq<Event>, t: Tid)
    requires Initial(s) && ProperRun(s, a) && ProperRun(Run(s, a), b)
    requires t in Run(s, a + b).threads && Run(s, a + b).threads[t].pc.Got?
    requires Unwritten(Run(s, a), b, Run(s, a + b).threads[t].pc.key)
    ensures var r, pc := Run(s, a + b), Run(s, a + b).threads[t].pc;
            pc.frame in r.frames && r.frames[pc.frame].data == Shown(Run(s, a), pc.key)
  {
    var r, pc := Run(s, a + b), Run(s, a + b).threads[t].pc;
    InitialSettled(s);
    ReachedSettled(s, a);
    RunJoin(s, a, b);
    RunShown(Run(s, a), b, pc.key);
    assert ThreadOk(r, t, r.threads[t]) && OneFrameEach(r);
    hide Inv;
    HeldAt(r, pc.frame);
  }

  lemma {:induction false} ReachedSettled(s: State, es: seq<Event>)
    requires Inv(s) && Settled(s) && ProperRun(s, es)
    ensures Inv(Run(s, es)) && Settled(Run(s, es))
  {
    hide Inv, Settled, Enabled, Step, Proper;
    if es != [] {
      var n, e := |es| - 1, es[|es| - 1];
      assert forall i | 0 <= i < n :: es[..n][..i] == es[..i] && es[..n][i] == es[i];
      ReachedSettled(s, es[..n]);
      var r := Run(s, es[..n]);
      if Enabled(r, e) {
        assert Proper(r, e);
        StepInv(r, e);
        StepSettled(r, e);
      }
    }
  }
}
