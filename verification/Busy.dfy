/** The busy/wait protocol of kernel/mm/pframe.c under all interleavings. The kernel is not
    preemptive, so threads interleave only where they block: asleep on the wait queue of a frame, or
    inside a fill, dirty or clean operation of the object. The fill of a shadow page looks for the page
    below its object and may itself call pframe_get for the bottom object, so a thread can be at work on
    one frame while it waits for, or fills, another. */
module Busy {
  import opened Wrappers
  import opened Words

  type Fid = nat
  type Tid = nat

  /** filled: the fill has returned; data stands for the contents, which are arbitrary until then. */
  datatype Frame =
    Frame(key: Key, busy: bool, filled: bool, data: nat, dirty: bool, pins: nat, waiters: set<Tid>)

  /** What an operation in progress is for; Failed is a shadow fill whose inner pframe_get has failed. */
  datatype Work = Fill | Failed | Dirty | Clean

  datatype Pc =
    | Idle
    | Retry(key: Key)                       // in pframe_get, about to look for the page
    | Asleep(frame: Fid, want: Option<Key>)  // on the wait queue of a frame; a daemon wants no page
    | Working(frame: Fid, work: Work)       // blocked in the object's operation
    | Got(frame: Fid, key: Key)             // running on, with the frame pframe_get returned

  /** outer is the shadow frame in whose fill the thread calls pframe_get for the bottom object. */
  datatype Thread = Thread(outer: Option<Fid>, pc: Pc)

  /** below gives the objects under a shadow object, nearest first and the bottom object last; files are
      the objects whose pages are on disk. frames are named by numbers that are never used twice; running is
      a thread that has not blocked since pframe_get returned to it. */
  datatype State =
    State(below: map<nat, seq<nat>>, files: set<nat>, disk: map<Key, nat>, frames: map<Fid, Frame>, next: Fid,
          threads: map<Tid, Thread>, running: Option<Tid>)

  const ZEROS: nat := 0

  datatype Event =
    | Get(t: Tid, key: Key, junk: nat)   // junk is what a new frame happens to hold
    | Scan(t: Tid, source: Option<Fid>)  // the loop of a shadow fill over the objects below
    | Return(t: Tid)                     // the inner pframe_get of a shadow fill is back with a frame
    | Finish(t: Tid, ok: bool)
    | StartDirty(t: Tid, f: Fid)
    | StartClean(t: Tid, f: Fid)
    | Await(t: Tid, f: Fid)
    | Release(t: Tid, f: Fid)
    | Pin(t: Tid, f: Fid)
    | Unpin(t: Tid, f: Fid)
    | Write(t: Tid, data: nat)           // into the frame pframe_get returned
    | Leave(t: Tid)

  /** The thread may act: it is the one running, or nothing holds the processor. */
  predicate MayAct(s: State, t: Tid) {
    t in s.threads && (s.running == None || s.running == Some(t))
  }

  /** In no call of this protocol, or back from pframe_get. */
  predicate AtRest(th: Thread) {
    th.outer.None? && (th.pc.Idle? || th.pc.Got?)
  }

  predicate IsShadow(s: State, o: nat) {
    o in s.below && s.below[o] != []
  }

  function Below(s: State, o: nat): seq<nat> {
    if o in s.below then s.below[o] else []
  }

  /** Writes go to objects that nothing shadows, the tops of private areas, and to bottom objects, which
      shared areas show. */
  ghost predicate Writable(s: State, o: nat) {
    !IsShadow(s, o) || forall x | IsShadow(s, x) :: o !in s.below[x]
  }

  /** What a fill of a bottom page brings in. */
  function Store(s: State, key: Key): nat {
    if key.obj in s.files && key in s.disk then s.disk[key] else ZEROS
  }

  /** The page a shadow page is read from when no object of its chain has it. */
  function BottomKey(s: State, key: Key): Key
    requires IsShadow(s, key.obj)
  {
    Key(s.below[key.obj][|s.below[key.obj]| - 1], key.page)
  }

  /** The fill of a shadow page, with no inner pframe_get under way. */
  predicate ShadowFill(s: State, th: Thread) {
    th.outer.None? && th.pc.Working? && th.pc.work.Fill? && th.pc.frame in s.frames &&
    IsShadow(s, s.frames[th.pc.frame].key.obj)
  }

  ghost predicate Resident(s: State, key: Key) {
    exists f :: f in s.frames && s.frames[f].key == key
  }

  /** The first frame, busy or not, that holds the page in an object of the chain. */
  ghost predicate Finds(s: State, chain: seq<nat>, page: nat, source: Option<Fid>) {
    match source
    case None => forall i | 0 <= i < |chain| :: !Resident(s, Key(chain[i], page))
    case Some(g) =>
      g in s.frames && s.frames[g].key.page == page &&
      exists i | 0 <= i < |chain| :: chain[i] == s.frames[g].key.obj &&
                                     forall j | 0 <= j < i :: !Resident(s, Key(chain[j], page))
  }

  /** A shadow fill fails only when the inner pframe_get does; it ends well by Scan or Return. */
  ghost predicate Enabled(s: State, e: Event) {
    MayAct(s, e.t) &&
    var th := s.threads[e.t];
    match e
    case Get(_, key, _) => AtRest(th) || th.pc == Retry(key)
    case Scan(_, source) =>
      ShadowFill(s, th) &&
      var key := s.frames[th.pc.frame].key;
      Finds(s, s.below[key.obj], key.page, source)
    case Return(_) => th.outer.Some? && th.pc.Got? && th.outer.value in s.frames && th.pc.frame in s.frames
    case Finish(_, ok) =>
      th.pc.Working? && th.pc.frame in s.frames && !ShadowFill(s, th) && (th.pc.work.Failed? ==> !ok)
    case StartDirty(_, f) => AtRest(th) && f in s.frames && !s.frames[f].busy
    case StartClean(_, f) =>
      AtRest(th) && f in s.frames && !s.frames[f].busy && s.frames[f].dirty && s.frames[f].pins == 0
    case Await(_, f) => AtRest(th) && f in s.frames && s.frames[f].busy
    case Release(_, f) => AtRest(th) && f in s.frames && !s.frames[f].busy && s.frames[f].pins == 0
    case Pin(_, f) => AtRest(th) && f in s.frames
    case Unpin(_, f) => AtRest(th) && f in s.frames && s.frames[f].pins > 0
    case Write(_, _) =>
      AtRest(th) && th.pc.Got? && th.pc.frame in s.frames && Writable(s, s.frames[th.pc.frame].key.obj)
    case Leave(_) => AtRest(th) && th.pc.Got?
  }

  function SetThread(s: State, t: Tid, th: Thread, running: Option<Tid>): State {
    s.(threads := s.threads[t := th], running := running)
  }

  function SetPc(s: State, t: Tid, pc: Pc, running: Option<Tid>): State
    requires t in s.threads
  {
    SetThread(s, t, Thread(s.threads[t].outer, pc), running)
  }

  function SetFrame(s: State, f: Fid, x: Frame): State {
    s.(frames := s.frames[f := x])
  }

  /** Sleep on the wait queue of f. */
  function Sleep(s: State, t: Tid, f: Fid, want: Option<Key>): State
    requires t in s.threads && f in s.frames
  {
    var x := s.frames[f];
    SetPc(SetFrame(s, f, x.(waiters := x.waiters + {t})), t, Asleep(f, want), None)
  }

  /** sched_broadcast_on: everyone asleep on f becomes runnable. */
  function Awake(th: Thread): Thread {
    if !th.pc.Asleep? then th
    else th.(pc := if th.pc.want.Some? then Retry(th.pc.want.value) else Idle)
  }

  function Broadcast(s: State, f: Fid): State
    requires f in s.frames
  {
    var x := s.frames[f];
    s.(frames := s.frames[f := x.(waiters := {})],
       threads := map t | t in s.threads :: if t in x.waiters then Awake(s.threads[t]) else s.threads[t])
  }

  function Start(s: State, t: Tid, f: Fid, x: Frame, work: Work): State
    requires t in s.threads
  {
    SetPc(SetFrame(s, f, x), t, Working(f, work), None)
  }

  function Free(s: State, f: Fid): State {
    s.(frames := s.frames - {f})
  }

  function NewFrame(key: Key, junk: nat): Frame {
    Frame(key, true, false, junk, false, 0, {})
  }

  /** pframe_get, from its start or after being woken, up to the next point where it blocks. */
  ghost function GetStep(s: State, t: Tid, key: Key, junk: nat): State
    requires t in s.threads
  {
    if f: Fid :| f in s.frames && s.frames[f].key == key then
      if s.frames[f].busy then Sleep(s, t, f, Some(key)) else SetPc(s, t, Got(f, key), Some(t))
    else
      Start(s.(next := s.next + 1), t, s.next, NewFrame(key, junk), Fill)
  }

  predicate Filling(work: Work) {
    work.Fill? || work.Failed?
  }

  /** The frame after an operation; data is what a fill that succeeds brings in. */
  function Done(x: Frame, work: Work, ok: bool, data: nat, pins: nat): Frame {
    x.(busy := false,
       filled := if Filling(work) then ok else x.filled,
       data := if work.Fill? && ok then data else x.data,
       dirty := if Filling(work) then x.dirty else if work.Dirty? then x.dirty || ok else x.dirty || !ok,
       pins := x.pins + pins)
  }

  /** Where the thread goes on: with the frame, or in the shadow fill whose inner pframe_get failed, or out. */
  function After(th: Thread, f: Fid, key: Key, work: Work, ok: bool): Thread {
    if Filling(work) && ok then th.(pc := Got(f, key))
    else if Filling(work) && th.outer.Some? then Thread(None, Working(th.outer.value, Failed))
    else Thread(None, Idle)
  }

  /** The disk after an operation: a clean that succeeds writes a file page back. */
  function Synced(s: State, f: Fid, work: Work, ok: bool): map<Key, nat>
    requires f in s.frames
  {
    var x := s.frames[f];
    if work.Clean? && ok && x.key.obj in s.files then s.disk[x.key := x.data] else s.disk
  }

  /** The end of an operation: clear busy, wake the sleepers; a failed fill frees the frame at once. */
  function FinishStep(s: State, t: Tid, ok: bool, data: nat, pins: nat): State
    requires t in s.threads && s.threads[t].pc.Working? && s.threads[t].pc.frame in s.frames
  {
    var th, f, work := s.threads[t], s.threads[t].pc.frame, s.threads[t].pc.work;
    var b := Broadcast(SetFrame(s, f, Done(s.frames[f], work, ok, data, pins)), f);
    SetThread((if Filling(work) && !ok then Free(b, f) else b).(disk := Synced(s, f, work, ok)), t,
              After(th, f, s.frames[f].key, work, ok),
              if Filling(work) && ok then Some(t) else None)
  }

  /** The end of an operation of a bottom object, or of one that brings in nothing; a fill that brings in a
      page that is on no disk pins it. */
  function EndStep(s: State, t: Tid, ok: bool): State
    requires t in s.threads && s.threads[t].pc.Working? && s.threads[t].pc.frame in s.frames
  {
    var key := s.frames[s.threads[t].pc.frame].key;
    FinishStep(s, t, ok, Store(s, key), if s.threads[t].pc.work.Fill? && key.obj !in s.files then 1 else 0)
  }

  /** Back in the fill of the outer frame. */
  function Resume(s: State, t: Tid): State
    requires t in s.threads && s.threads[t].outer.Some?
  {
    SetThread(s, t, Thread(None, Working(s.threads[t].outer.value, Fill)), None)
  }

  ghost function Step(s: State, e: Event): State
    requires Enabled(s, e)
  {
    match e
    case Get(t, key, junk) => GetStep(s, t, key, junk)
    case Scan(t, source) =>
      if source.Some? then FinishStep(s, t, true, s.frames[source.value].data, 1)
      else
        var f := s.threads[t].pc.frame;
        SetThread(s, t, Thread(Some(f), Retry(BottomKey(s, s.frames[f].key))), None)
    case Return(t) => FinishStep(Resume(s, t), t, true, s.frames[s.threads[t].pc.frame].data, 1)
    case Finish(t, ok) => EndStep(s, t, ok)
    case StartDirty(t, f) => Start(s, t, f, s.frames[f].(busy := true), Dirty)
    case StartClean(t, f) => Start(s, t, f, s.frames[f].(busy := true, dirty := false), Clean)
    case Await(t, f) => Sleep(s, t, f, None)
    case Release(t, f) => SetPc(Free(s, f), t, Idle, None)
    case Pin(t, f) => SetFrame(s, f, s.frames[f].(pins := s.frames[f].pins + 1))
    case Unpin(t, f) => SetFrame(s, f, s.frames[f].(pins := s.frames[f].pins - 1))
    case Write(t, data) => SetFrame(s, s.threads[t].pc.frame, s.frames[s.threads[t].pc.frame].(data := data))
    case Leave(t) => SetPc(s, t, Idle, None)
  }

  // ----- The invariant -----

  /** At most one frame per identity. */
  ghost predicate OneFrameEach(s: State) {
    forall f, g | f in s.frames && g in s.frames && s.frames[f].key == s.frames[g].key :: f == g
  }

  /** The wait queue of a frame holds exactly the threads asleep on it, and it is empty unless busy. */
  ghost predicate QueuesOk(s: State) {
    forall f | f in s.frames :: QueueOk(s, f)
  }

  ghost predicate QueueOk(s: State, f: Fid)
    requires f in s.frames
  {
    && (s.frames[f].waiters != {} ==> s.frames[f].busy)
    && forall t :: t in s.frames[f].waiters <==> SleepsOn(s, t, f)
  }

  predicate SleepsOn(s: State, t: Tid, f: Fid) {
    t in s.threads && s.threads[t].pc.Asleep? && s.threads[t].pc.frame == f
  }

  /** t is at work on f, perhaps inside an inner pframe_get. */
  predicate Owns(s: State, t: Tid, f: Fid) {
    t in s.threads &&
    (s.threads[t].outer == Some(f) || (s.threads[t].pc.Working? && s.threads[t].pc.frame == f))
  }

  ghost predicate HasOwner(s: State, f: Fid) {
    exists t :: Owns(s, t, f)
  }

  /** A busy frame has a thread at work on it, and only one; a frame that is not busy is filled. */
  ghost predicate BusyOk(s: State) {
    && (forall f | f in s.frames && s.frames[f].busy :: HasOwner(s, f))
    && (forall f, t, u | Owns(s, t, f) && Owns(s, u, f) :: t == u)
    && (forall f | f in s.frames && !s.frames[f].busy :: s.frames[f].filled)
  }

  /** What a thread refers to is there, with the identity it asked for. */
  predicate PcOk(s: State, t: Tid, pc: Pc) {
    match pc
    case Idle => true
    case Retry(_) => true
    case Asleep(f, want) => f in s.frames && (want.Some? ==> s.frames[f].key == want.value)
    case Working(f, work) =>
      && f in s.frames && s.frames[f].busy && (Filling(work) <==> !s.frames[f].filled)
      && (work.Failed? ==> IsShadow(s, s.frames[f].key.obj))
    case Got(f, key) => s.running == Some(t) && f in s.frames && s.frames[f].key == key &&
                        s.frames[f].filled && !s.frames[f].busy
  }

  /** The inner pframe_get is for the bottom page of the shadow frame f. */
  predicate InnerOk(s: State, f: Fid, pc: Pc) {
    && f in s.frames && s.frames[f].busy && !s.frames[f].filled && IsShadow(s, s.frames[f].key.obj)
    && var key := BottomKey(s, s.frames[f].key);
       match pc
       case Idle => false
       case Retry(k) => k == key
       case Asleep(_, want) => want == Some(key)
       case Working(g, work) => work.Fill? && g in s.frames && s.frames[g].key == key
       case Got(_, k) => k == key
  }

  predicate ThreadOk(s: State, t: Tid, th: Thread) {
    PcOk(s, t, th.pc) && (th.outer.Some? ==> InnerOk(s, th.outer.value, th.pc))
  }

  ghost predicate ThreadsOk(s: State) {
    && (forall t | t in s.threads :: ThreadOk(s, t, s.threads[t]))
    && (s.running.Some? ==> s.running.value in s.threads && s.threads[s.running.value].pc.Got?)
    && (forall f | f in s.frames :: f < s.next)
  }

  /** What is under an object of a chain is the rest of the chain; so a bottom object shadows nothing. */
  ghost predicate ChainsOk(s: State) {
    forall o, i | o in s.below && 0 <= i < |s.below[o]| :: Below(s, s.below[o][i]) == s.below[o][i + 1..]
  }

  ghost predicate Inv(s: State) {
    OneFrameEach(s) && QueuesOk(s) && BusyOk(s) && ThreadsOk(s) && ChainsOk(s)
  }

  /** The protocol starts without frames and with all threads idle. */
  ghost predicate Initial(s: State) {
    && s.frames == map[] && s.running == None && ChainsOk(s)
    && forall t | t in s.threads :: s.threads[t] == Thread(None, Idle)
  }

  // ----- Every step keeps it -----

  /** Threads at work stay where they are; t may join them. */
  lemma OwnersKept(s: State, r: State, t: Tid, f: Fid)
    requires BusyOk(s)
    requires forall u, g | Owns(s, u, g) :: Owns(r, u, g)
    requires forall g | g in r.frames && r.frames[g].busy && g != f :: g in s.frames && s.frames[g].busy
    requires f in r.frames && r.frames[f].busy ==> Owns(r, t, f) || (f in s.frames && s.frames[f].busy)
    ensures forall g | g in r.frames && r.frames[g].busy :: HasOwner(r, g)
  {
    forall g | g in r.frames && r.frames[g].busy
      ensures HasOwner(r, g)
    {
      if g in s.frames && s.frames[g].busy {
        assert HasOwner(s, g);
        var u :| Owns(s, u, g);
        assert Owns(r, u, g);
      } else {
        assert Owns(r, t, g);
      }
    }
  }

  /** The same frames, as far as the protocol goes. */
  ghost predicate SameFrames(s: State, r: State) {
    && r.below == s.below && r.frames.Keys == s.frames.Keys
    && forall f | f in s.frames ::
         && r.frames[f].key == s.frames[f].key && r.frames[f].busy == s.frames[f].busy
         && r.frames[f].filled == s.frames[f].filled && r.frames[f].waiters == s.frames[f].waiters
  }

  /** A step in which nobody takes up or ends an operation or a sleep. */
  lemma QuietInv(s: State, r: State)
    requires Inv(s) && SameFrames(s, r) && ThreadsOk(r)
    requires forall u, g :: Owns(r, u, g) == Owns(s, u, g)
    requires forall u, g :: SleepsOn(r, u, g) == SleepsOn(s, u, g)
    ensures Inv(r)
  {
    OwnersKept(s, r, 0, s.next);
    forall g | g in r.frames
      ensures QueueOk(r, g)
    {
      assert QueueOk(s, g);
    }
    hide Owns, SleepsOn, ThreadsOk;
  }

  /** Neither asleep nor inside an operation. */
  predicate Ready(pc: Pc) {
    !pc.Asleep? && !pc.Working?
  }

  lemma SleepInv(s: State, t: Tid, f: Fid, want: Option<Key>)
    requires Inv(s) && MayAct(s, t) && Ready(s.threads[t].pc)
    requires f in s.frames && s.frames[f].busy && (want.Some? ==> s.frames[f].key == want.value)
    requires s.threads[t].outer.Some? ==> InnerOk(s, s.threads[t].outer.value, Asleep(f, want))
    ensures Inv(Sleep(s, t, f, want))
  {
    hide QueuesOk, BusyOk, OneFrameEach, ThreadsOk, ChainsOk;
    SleepQueues(s, t, f, want);
    SleepOwners(s, t, f, want);
    SleepThreads(s, t, f, want);
  }

  lemma SleepOwners(s: State, t: Tid, f: Fid, want: Option<Key>)
    requires OneFrameEach(s) && BusyOk(s) && t in s.threads && Ready(s.threads[t].pc)
    requires f in s.frames && s.frames[f].busy
    ensures OneFrameEach(Sleep(s, t, f, want)) && BusyOk(Sleep(s, t, f, want))
  {
    var r := Sleep(s, t, f, want);
    assert forall u, g :: Owns(r, u, g) == Owns(s, u, g);
    OwnersKept(s, r, t, f);
  }

  lemma SleepThreads(s: State, t: Tid, f: Fid, want: Option<Key>)
    requires ThreadsOk(s) && ChainsOk(s) && MayAct(s, t) && Ready(s.threads[t].pc)
    requires f in s.frames && s.frames[f].busy && (want.Some? ==> s.frames[f].key == want.value)
    requires s.threads[t].outer.Some? ==> InnerOk(s, s.threads[t].outer.value, Asleep(f, want))
    ensures ThreadsOk(Sleep(s, t, f, want)) && ChainsOk(Sleep(s, t, f, want))
  {
    var r := Sleep(s, t, f, want);
    forall u | u in r.threads
      ensures ThreadOk(r, u, r.threads[u])
    {
      assert ThreadOk(s, u, s.threads[u]);
    }
  }

  lemma SleepQueues(s: State, t: Tid, f: Fid, want: Option<Key>)
    requires QueuesOk(s) && MayAct(s, t) && Ready(s.threads[t].pc) && f in s.frames && s.frames[f].busy
    ensures QueuesOk(Sleep(s, t, f, want))
  {
    var r := Sleep(s, t, f, want);
    forall g | g in r.frames
      ensures QueueOk(r, g)
    {
      assert QueueOk(s, g);
      hide QueuesOk;
    }
  }

  /** A thread that is not engaged elsewhere begins to work on f, which is new or not busy. */
  ghost predicate StartOk(s: State, t: Tid, f: Fid, x: Frame, work: Work) {
    && MayAct(s, t) && Ready(s.threads[t].pc) && f < s.next
    && x.busy && x.waiters == {} && (Filling(work) <==> !x.filled) && !work.Failed?
    && (f in s.frames ==> !s.frames[f].busy && x.key == s.frames[f].key && x.filled)
    && (f !in s.frames ==> (forall g | g in s.frames :: s.frames[g].key != x.key)
                           && forall u | u in s.threads :: NotAbout(s.threads[u], f))
    && (s.threads[t].outer.Some? ==>
          work.Fill? && InnerOk(s, s.threads[t].outer.value, Retry(x.key)))
  }

  predicate NotAbout(th: Thread, f: Fid) {
    th.outer != Some(f) && ((th.pc.Asleep? || th.pc.Working? || th.pc.Got?) ==> th.pc.frame != f)
  }

  lemma StartInv(s: State, t: Tid, f: Fid, x: Frame, work: Work)
    requires Inv(s) && StartOk(s, t, f, x, work)
    ensures Inv(Start(s, t, f, x, work))
  {
    StartQueues(s, t, f, x, work);
    StartOwners(s, t, f, x, work);
    StartThreads(s, t, f, x, work);
    hide StartOk, OneFrameEach, QueuesOk, BusyOk, ThreadsOk;
  }

  lemma StartQueues(s: State, t: Tid, f: Fid, x: Frame, work: Work)
    requires OneFrameEach(s) && QueuesOk(s) && StartOk(s, t, f, x, work)
    ensures OneFrameEach(Start(s, t, f, x, work)) && QueuesOk(Start(s, t, f, x, work))
  {
    var r := Start(s, t, f, x, work);
    forall g | g in r.frames
      ensures QueueOk(r, g)
    {
      if g in s.frames { assert QueueOk(s, g); }
    }
  }

  lemma StartOwners(s: State, t: Tid, f: Fid, x: Frame, work: Work)
    requires Inv(s) && StartOk(s, t, f, x, work)
    ensures BusyOk(Start(s, t, f, x, work))
  {
    var r := Start(s, t, f, x, work);
    forall u, g
      ensures Owns(r, u, g) <==> Owns(s, u, g) || (u == t && g == f)
      ensures Owns(s, u, g) ==> g != f
    {
      if Owns(s, u, g) { assert ThreadOk(s, u, s.threads[u]); }
    }
    OwnersKept(s, r, t, f);
  }

  lemma StartThread(s: State, t: Tid, f: Fid, x: Frame, work: Work, u: Tid)
    requires StartOk(s, t, f, x, work) && u in s.threads && ThreadOk(s, u, s.threads[u])
    ensures var r := Start(s, t, f, x, work); ThreadOk(r, u, r.threads[u])
  {
  }

  lemma StartThreads(s: State, t: Tid, f: Fid, x: Frame, work: Work)
    requires Inv(s) && StartOk(s, t, f, x, work)
    ensures ThreadsOk(Start(s, t, f, x, work))
  {
    hide OneFrameEach, QueuesOk, BusyOk, ThreadOk;
    var r := Start(s, t, f, x, work);
    forall u | u in r.threads
      ensures ThreadOk(r, u, r.threads[u])
    {
      StartThread(s, t, f, x, work, u);
    }
  }

  /** pframe_get for a page that is not resident. */
  lemma GetMiss(s: State, t: Tid, key: Key, junk: nat)
    requires t in s.threads && !Resident(s, key)
    ensures GetStep(s, t, key, junk) == Start(s.(next := s.next + 1), t, s.next, NewFrame(key, junk), Fill)
  {
    assert forall f | f in s.frames :: s.frames[f].key != key;
  }

  /** pframe_get for a resident page. */
  lemma GetHit(s: State, t: Tid, key: Key, junk: nat, f: Fid)
    requires OneFrameEach(s) && t in s.threads && f in s.frames && s.frames[f].key == key
    ensures GetStep(s, t, key, junk) ==
            if s.frames[f].busy then Sleep(s, t, f, Some(key)) else SetPc(s, t, Got(f, key), Some(t))
  {
  }

  lemma GetInv(s: State, t: Tid, key: Key, junk: nat)
    requires Inv(s) && Enabled(s, Get(t, key, junk))
    ensures Inv(GetStep(s, t, key, junk))
  {
    InnerGet(s, t, key, junk);
    assert OneFrameEach(s);
    hide Inv;
    if f :| f in s.frames && s.frames[f].key == key {
      GetHit(s, t, key, junk, f);
      hide GetStep;
      if s.frames[f].busy {
        SleepInv(s, t, f, Some(key));
      } else {
        GotInv(s, t, f);
      }
    } else {
      GetMiss(s, t, key, junk);
      hide GetStep;
      AllocInv(s, t, key, junk);
    }
  }

  /** A pframe_get inside a fill is for the bottom page. */
  lemma InnerGet(s: State, t: Tid, key: Key, junk: nat)
    requires Inv(s) && Enabled(s, Get(t, key, junk))
    ensures Ready(s.threads[t].pc)
    ensures s.threads[t].outer.Some? ==> InnerOk(s, s.threads[t].outer.value, Retry(key))
  {
    assert ThreadOk(s, t, s.threads[t]);
  }

  lemma GotInv(s: State, t: Tid, f: Fid)
    requires Inv(s) && MayAct(s, t) && Ready(s.threads[t].pc) && f in s.frames && !s.frames[f].busy
    requires s.threads[t].outer.Some? ==> InnerOk(s, s.threads[t].outer.value, Retry(s.frames[f].key))
    ensures Inv(SetPc(s, t, Got(f, s.frames[f].key), Some(t)))
  {
    var r := SetPc(s, t, Got(f, s.frames[f].key), Some(t));
    forall u | u in r.threads
      ensures ThreadOk(r, u, r.threads[u])
    {
      assert ThreadOk(s, u, s.threads[u]);
    }
    QuietInv(s, r);
  }

  lemma AllocInv(s: State, t: Tid, key: Key, junk: nat)
    requires Inv(s) && MayAct(s, t) && Ready(s.threads[t].pc)
    requires s.threads[t].outer.Some? ==> InnerOk(s, s.threads[t].outer.value, Retry(key))
    requires forall f | f in s.frames :: s.frames[f].key != key
    ensures Inv(Start(s.(next := s.next + 1), t, s.next, NewFrame(key, junk), Fill))
  {
    var q := s.(next := s.next + 1);
    NextInv(s);
    forall u | u in s.threads
      ensures NotAbout(s.threads[u], s.next)
    {
      assert ThreadOk(s, u, s.threads[u]);
    }
    StartInv(q, t, s.next, NewFrame(key, junk), Fill);
  }

  lemma NextInv(s: State)
    requires Inv(s)
    ensures Inv(s.(next := s.next + 1))
  {
    var r := s.(next := s.next + 1);
    forall u | u in r.threads
      ensures ThreadOk(r, u, r.threads[u])
    {
      assert ThreadOk(s, u, s.threads[u]);
    }
    QuietInv(s, r);
  }

  // ----- The end of an operation -----

  predicate FinishOk(s: State, t: Tid) {
    t in s.threads && s.running.None? && s.threads[t].pc.Working? && s.threads[t].pc.frame in s.frames
  }

  /** The frames after an operation, and the rest that matters here. */
  lemma FinishFrames(s: State, t: Tid, ok: bool, data: nat, pins: nat)
    requires FinishOk(s, t)
    ensures var f, work, r := s.threads[t].pc.frame, s.threads[t].pc.work, FinishStep(s, t, ok, data, pins);
            var x := Done(s.frames[f], work, ok, data, pins).(waiters := {});
            && r.frames == (if Filling(work) && !ok then s.frames - {f} else s.frames[f := x])
            && r.below == s.below && r.files == s.files && r.disk == Synced(s, f, work, ok)
  {
  }

  /** Who slept on the frame is awake; who sleeps on another goes on sleeping. */
  lemma FinishSleeps(s: State, t: Tid, ok: bool, data: nat, pins: nat, u: Tid, g: Fid)
    requires FinishOk(s, t) && QueueOk(s, s.threads[t].pc.frame)
    ensures SleepsOn(FinishStep(s, t, ok, data, pins), u, g) <==> SleepsOn(s, u, g) && g != s.threads[t].pc.frame
  {
    assert SleepsOn(s, u, s.threads[t].pc.frame) <==> u in s.frames[s.threads[t].pc.frame].waiters;
  }

  lemma FinishQueueAt(s: State, t: Tid, ok: bool, data: nat, pins: nat, g: Fid)
    requires FinishOk(s, t) && g in FinishStep(s, t, ok, data, pins).frames
    requires g in s.frames && QueueOk(s, g) && QueueOk(s, s.threads[t].pc.frame)
    ensures QueueOk(FinishStep(s, t, ok, data, pins), g)
  {
    FinishFrames(s, t, ok, data, pins);
    forall u
      ensures SleepsOn(FinishStep(s, t, ok, data, pins), u, g) <==> SleepsOn(s, u, g) && g != s.threads[t].pc.frame
    {
      FinishSleeps(s, t, ok, data, pins, u, g);
    }
    hide FinishStep, SleepsOn;
  }

  lemma FinishQueues(s: State, t: Tid, ok: bool, data: nat, pins: nat)
    requires OneFrameEach(s) && QueuesOk(s) && FinishOk(s, t)
    ensures QueuesOk(FinishStep(s, t, ok, data, pins)) && OneFrameEach(FinishStep(s, t, ok, data, pins))
  {
    hide QueueOk;
    forall g | g in FinishStep(s, t, ok, data, pins).frames
      ensures QueueOk(FinishStep(s, t, ok, data, pins), g)
    {
      FinishQueueAt(s, t, ok, data, pins, g);
    }
  }

  /** t gives up the frame it finishes, and nothing else. */
  lemma FinishOwns(s: State, t: Tid, ok: bool, data: nat, pins: nat, u: Tid, g: Fid)
    requires FinishOk(s, t) && (Owns(s, u, s.threads[t].pc.frame) ==> u == t)
    requires s.threads[t].outer != Some(s.threads[t].pc.frame)
    requires s.threads[t].outer.Some? ==> Filling(s.threads[t].pc.work)
    ensures Owns(FinishStep(s, t, ok, data, pins), u, g) <==> Owns(s, u, g) && g != s.threads[t].pc.frame
  {
  }

  /** The inner frame is of a bottom object, the outer of a shadow object. */
  lemma InnerIsBottom(s: State, t: Tid)
    requires Inv(s) && t in s.threads && s.threads[t].outer.Some?
    requires s.threads[t].pc.Asleep? || s.threads[t].pc.Working? || s.threads[t].pc.Got?
    ensures var g := s.threads[t].pc.frame;
            && g in s.frames && !IsShadow(s, s.frames[g].key.obj) && s.threads[t].outer != Some(g)
            && s.frames[g].key == BottomKey(s, s.frames[s.threads[t].outer.value].key)
  {
    assert ThreadOk(s, t, s.threads[t]);
    var o := s.frames[s.threads[t].outer.value].key.obj;
    assert IsShadow(s, o);
  }

  lemma FinishOwners(s: State, t: Tid, ok: bool, data: nat, pins: nat)
    requires Inv(s) && FinishOk(s, t)
    ensures BusyOk(FinishStep(s, t, ok, data, pins))
  {
    var f := s.threads[t].pc.frame;
    var r := FinishStep(s, t, ok, data, pins);
    assert Owns(s, t, f) && ThreadOk(s, t, s.threads[t]);
    if s.threads[t].outer.Some? { InnerIsBottom(s, t); }
    forall u, g
      ensures Owns(r, u, g) <==> Owns(s, u, g) && g != f
    {
      FinishOwns(s, t, ok, data, pins, u, g);
    }
    assert ThreadOk(s, t, s.threads[t]);
    hide Owns;
    forall g | g in r.frames && r.frames[g].busy
      ensures HasOwner(r, g)
    {
      assert HasOwner(s, g);
      var u :| Owns(s, u, g);
      assert Owns(r, u, g);
    }
  }

  lemma FinishThreads(s: State, t: Tid, ok: bool, data: nat, pins: nat)
    requires Inv(s) && FinishOk(s, t)
    ensures ThreadsOk(FinishStep(s, t, ok, data, pins))
  {
    var f, r := s.threads[t].pc.frame, FinishStep(s, t, ok, data, pins);
    if s.threads[t].outer.Some? { InnerIsBottom(s, t); }
    assert QueueOk(s, f) && Owns(s, t, f);
    assert forall u | u != t :: !Owns(s, u, f);
    hide QueuesOk, QueueOk, BusyOk, OneFrameEach, ThreadOk, Owns;
    forall u | u in r.threads
      ensures ThreadOk(r, u, r.threads[u])
    {
      if u == t { FinishThread(s, t, ok, data, pins); } else { FinishOther(s, t, ok, data, pins, u); }
    }
  }

  lemma FinishThread(s: State, t: Tid, ok: bool, data: nat, pins: nat)
    requires FinishOk(s, t) && ThreadOk(s, t, s.threads[t]) && s.threads[t].outer != Some(s.threads[t].pc.frame)
    ensures var r := FinishStep(s, t, ok, data, pins); t in r.threads && ThreadOk(r, t, r.threads[t])
  {
  }

  lemma FinishOther(s: State, t: Tid, ok: bool, data: nat, pins: nat, u: Tid)
    requires FinishOk(s, t) && u in s.threads && u != t && ThreadOk(s, u, s.threads[u])
    requires !Owns(s, u, s.threads[t].pc.frame) && QueueOk(s, s.threads[t].pc.frame)
    requires ThreadOk(s, t, s.threads[t])
    ensures var r := FinishStep(s, t, ok, data, pins); u in r.threads && ThreadOk(r, u, r.threads[u])
  {
    assert SleepsOn(s, u, s.threads[t].pc.frame) <==> u in s.frames[s.threads[t].pc.frame].waiters;
  }

  /** The end of an operation, also of one inside another, keeps the protocol in order. */
  lemma FinishInv(s: State, t: Tid, ok: bool, data: nat, pins: nat)
    requires Inv(s) && FinishOk(s, t)
    ensures Inv(FinishStep(s, t, ok, data, pins))
  {
    FinishQueues(s, t, ok, data, pins);
    FinishOwners(s, t, ok, data, pins);
    FinishThreads(s, t, ok, data, pins);
    hide OneFrameEach, QueuesOk, BusyOk, ThreadsOk;
  }

  lemma EndInv(s: State, t: Tid, ok: bool)
    requires Inv(s) && FinishOk(s, t)
    ensures Inv(EndStep(s, t, ok))
  {
    hide Inv;
    var key := s.frames[s.threads[t].pc.frame].key;
    FinishInv(s, t, ok, Store(s, key), if s.threads[t].pc.work.Fill? && key.obj !in s.files then 1 else 0);
  }

  /** Who works on a frame is not the running thread. */
  lemma Blocked(s: State, t: Tid)
    requires Inv(s) && MayAct(s, t) && !s.threads[t].pc.Got?
    ensures s.running.None?
  {
  }

  // ----- Inner calls of pframe_get -----

  /** t goes from the fill of f into the inner pframe_get, or back. */
  lemma MoveInv(s: State, t: Tid, th: Thread)
    requires Inv(s) && t in s.threads && !s.threads[t].pc.Asleep? && !th.pc.Asleep?
    requires s.running.None? || s.running == Some(t)
    requires forall g :: Owns(s, t, g) <==> Owns(SetThread(s, t, th, None), t, g)
    requires ThreadOk(SetThread(s, t, th, None), t, th)
    ensures Inv(SetThread(s, t, th, None))
  {
    var r := SetThread(s, t, th, None);
    forall u | u in r.threads
      ensures ThreadOk(r, u, r.threads[u])
    {
      assert ThreadOk(s, u, s.threads[u]);
    }
    QuietInv(s, r);
  }

  lemma ScanInv(s: State, t: Tid, source: Option<Fid>)
    requires Inv(s) && Enabled(s, Scan(t, source))
    ensures Inv(Step(s, Scan(t, source)))
  {
    Blocked(s, t);
    if source.Some? {
      FinishInv(s, t, true, s.frames[source.value].data, 1);
    } else {
      assert ThreadOk(s, t, s.threads[t]);
      var f := s.threads[t].pc.frame;
      var th := Thread(Some(f), Retry(BottomKey(s, s.frames[f].key)));
      MoveInv(s, t, th);
    }
  }

  lemma ResumeInv(s: State, t: Tid)
    requires Inv(s) && Enabled(s, Return(t))
    ensures Inv(Resume(s, t)) && FinishOk(Resume(s, t), t)
  {
    assert ThreadOk(s, t, s.threads[t]);
    MoveInv(s, t, Thread(None, Working(s.threads[t].outer.value, Fill)));
  }

  // ----- The other steps -----

  /** Freeing a frame that is not busy leaves no sleeper behind. */
  lemma ReleaseInv(s: State, t: Tid, f: Fid)
    requires Inv(s) && Enabled(s, Release(t, f))
    ensures Inv(Step(s, Release(t, f)))
  {
    var r := Step(s, Release(t, f));
    ReleaseThreads(s, t, f);
    assert forall u, g :: Owns(r, u, g) == Owns(s, u, g);
    OwnersKept(s, r, t, f);
    hide ThreadsOk;
    forall g | g in r.frames
      ensures QueueOk(r, g)
    {
      assert QueueOk(s, g);
      assert forall u :: SleepsOn(r, u, g) == SleepsOn(s, u, g);
    }
  }

  lemma ReleaseThreads(s: State, t: Tid, f: Fid)
    requires Inv(s) && Enabled(s, Release(t, f))
    ensures ThreadsOk(Step(s, Release(t, f)))
  {
    var r := Step(s, Release(t, f));
    forall u | u in r.threads
      ensures ThreadOk(r, u, r.threads[u])
    {
      assert ThreadOk(s, u, s.threads[u]);
      assert QueueOk(s, f) && !SleepsOn(s, u, f);
    }
  }

  lemma SameThreads(s: State, r: State)
    requires ThreadsOk(s) && SameFrames(s, r) && r.next == s.next && r.threads == s.threads && r.running == s.running
    ensures ThreadsOk(r)
  {
    forall u | u in r.threads
      ensures ThreadOk(r, u, r.threads[u])
    {
      assert ThreadOk(s, u, s.threads[u]);
    }
  }

  /** Pins and contents do not matter to the protocol. */
  lemma HoldInv(s: State, f: Fid, n: nat, data: nat)
    requires Inv(s) && f in s.frames
    ensures Inv(SetFrame(s, f, s.frames[f].(pins := n, data := data)))
  {
    var r := SetFrame(s, f, s.frames[f].(pins := n, data := data));
    assert SameFrames(s, r);
    hide SameFrames, QueuesOk, BusyOk, OneFrameEach, ChainsOk, ThreadsOk;
    SameThreads(s, r);
    QuietInv(s, r);
  }

  lemma StartWork(s: State, t: Tid, f: Fid, dirty: bool, work: Work)
    requires Inv(s) && MayAct(s, t) && AtRest(s.threads[t]) && f in s.frames && !s.frames[f].busy && !Filling(work)
    ensures Inv(Start(s, t, f, s.frames[f].(busy := true, dirty := dirty), work))
  {
    var x := s.frames[f].(busy := true, dirty := dirty);
    assert QueueOk(s, f);
    assert x.waiters == {} && x.filled;
    StartInv(s, t, f, x, work);
  }

  lemma StepInv(s: State, e: Event)
    requires Inv(s) && Enabled(s, e)
    ensures Inv(Step(s, e))
  {
    hide Inv;
    match e
    case Get(t, key, junk) => GetInv(s, t, key, junk);
    case Scan(t, source) => ScanInv(s, t, source);
    case Return(t) =>
      ResumeInv(s, t);
      FinishInv(Resume(s, t), t, true, s.frames[s.threads[t].pc.frame].data, 1);
    case Finish(t, ok) =>
      Blocked(s, t);
      EndInv(s, t, ok);
    case StartDirty(t, f) =>
      StartWork(s, t, f, s.frames[f].dirty, Dirty);
      assert s.frames[f].(busy := true) == s.frames[f].(busy := true, dirty := s.frames[f].dirty);
    case StartClean(t, f) => StartWork(s, t, f, false, Clean);
    case Await(t, f) => SleepInv(s, t, f, None);
    case Release(t, f) => ReleaseInv(s, t, f);
    case Pin(t, f) => HoldInv(s, f, s.frames[f].pins + 1, s.frames[f].data);
    case Unpin(t, f) => HoldInv(s, f, s.frames[f].pins - 1, s.frames[f].data);
    case Write(t, data) => HoldInv(s, s.threads[t].pc.frame, s.frames[s.threads[t].pc.frame].pins, data);
    case Leave(t) => MoveInv(s, t, Thread(None, Idle));
  }

  ghost function Run(s: State, es: seq<Event>): State {
    if es == [] then s
    else
      var r := Run(s, es[..|es| - 1]);
      if Enabled(r, es[|es| - 1]) then Step(r, es[|es| - 1]) else r
  }

  /** In every interleaving: one frame per identity, sleepers only on busy frames, one worker per busy frame,
      inner calls of pframe_get only for bottom pages. */
  lemma {:induction false} RunInv(s: State, es: seq<Event>)
    requires Initial(s)
    ensures Inv(Run(s, es))
  {
    if es != [] {
      RunInv(s, es[..|es| - 1]);
      var r := Run(s, es[..|es| - 1]);
      if Enabled(r, es[|es| - 1]) { StepInv(r, es[|es| - 1]); }
    }
  }

  /** pframe_get, inner calls included, returns only a resident, filled frame that is not busy, of the
      identity asked for; until the thread blocks or leaves, no other thread acts. */
  lemma GetReturnsGoodFrame(s: State, es: seq<Event>, t: Tid)
    requires Initial(s) && t in Run(s, es).threads && Run(s, es).threads[t].pc.Got?
    ensures var r := Run(s, es);
            var pc := r.threads[t].pc;
            && pc.frame in r.frames && r.frames[pc.frame].key == pc.key
            && r.frames[pc.frame].filled && !r.frames[pc.frame].busy
            && (forall f | f in r.frames && r.frames[f].key == pc.key :: f == pc.frame)
            && forall u | u != t :: !MayAct(r, u)
  {
    RunInv(s, es);
    var r := Run(s, es);
    assert ThreadOk(r, t, r.threads[t]);
  }

  /** What a Get asked for is what a later return names: the frame under way carries the key. */
  lemma GetKeepsKey(s: State, t: Tid, key: Key, junk: nat)
    requires Inv(s) && Enabled(s, Get(t, key, junk))
    ensures var r := Step(s, Get(t, key, junk));
            r.threads[t].outer == s.threads[t].outer &&
            match r.threads[t].pc
            case Got(f, k) => k == key && f in r.frames && r.frames[f].key == key
            case Working(f, work) => work.Fill? && f in r.frames && r.frames[f].key == key && f !in s.frames
            case Asleep(f, want) => want == Some(key) && f in r.frames && r.frames[f].key == key && r.frames[f].busy
            case _ => false
  {
    assert OneFrameEach(s) && s.next !in s.frames;
    hide Inv;
    if f :| f in s.frames && s.frames[f].key == key {
      GetHit(s, t, key, junk, f);
      hide GetStep;
    } else {
      GetMiss(s, t, key, junk);
      hide GetStep;
    }
  }

  /** The frame a thread sleeps on. */
  lemma SleepersFrame(s: State, t: Tid)
    requires Inv(s) && t in s.threads && s.threads[t].pc.Asleep?
    ensures var f := s.threads[t].pc.frame;
            f in s.frames && s.frames[f].busy && t in s.frames[f].waiters && HasOwner(s, f)
  {
    var f := s.threads[t].pc.frame;
    assert ThreadOk(s, t, s.threads[t]) && QueueOk(s, f) && SleepsOn(s, t, f);
  }

  lemma OneOwner(s: State, t: Tid, u: Tid, f: Fid)
    requires Inv(s) && Owns(s, t, f) && Owns(s, u, f)
    ensures t == u
  {
  }

  /** u ends its operation on f: by Finish, or as a shadow fill that found its page. */
  ghost predicate Ends(s: State, e: Event, f: Fid) {
    && Enabled(s, e)
    && match e
       case Finish(u, _) => OnlyWorks(s, u, f)
       case Scan(u, source) => OnlyWorks(s, u, f) && source.Some?
       case Return(u) => s.threads[u].outer == Some(f)
       case _ => false
  }

  /** A sleeping thread is never forgotten: its frame is still there and busy, it is on the wait queue,
      and one thread is at work on the frame. So no frame is freed under a sleeper. However that thread ends
      its operation, the sleeper wakes, inside the shadow fill it may have been in. */
  lemma SleeperIsSafe(s: State, es: seq<Event>, t: Tid)
    requires Initial(s) && t in Run(s, es).threads && Run(s, es).threads[t].pc.Asleep?
    ensures var r := Run(s, es);
            var f := r.threads[t].pc.frame;
            f in r.frames && r.frames[f].busy && t in r.frames[f].waiters &&
            exists u :: Owns(r, u, f) && forall v :: Owns(r, v, f) ==> v == u
    ensures var r := Run(s, es);
            forall e: Event | Ends(r, e, r.threads[t].pc.frame) ::
              Owns(r, e.t, r.threads[t].pc.frame) && Step(r, e).threads[t] == Awake(r.threads[t])
  {
    RunInv(s, es);
    var r := Run(s, es);
    hide Run, Inv, Owns, Enabled, Ends;
    SleepersFrame(r, t);
    var f := r.threads[t].pc.frame;
    var u :| Owns(r, u, f);
    forall v | Owns(r, v, f)
      ensures v == u
    {
      OneOwner(r, v, u, f);
    }
    forall e: Event | Ends(r, e, f)
      ensures Owns(r, e.t, f) && Step(r, e).threads[t] == Awake(r.threads[t])
    {
      EndWakes(r, e, f, t);
    }
  }

  lemma EndWakes(s: State, e: Event, f: Fid, t: Tid)
    requires t in s.threads && s.threads[t].pc.Asleep? && Ends(s, e, f) && f in s.frames && t in s.frames[f].waiters
    ensures Owns(s, e.t, f) && Step(s, e).threads[t] == Awake(s.threads[t])
  {
  }

  predicate OnlyWorks(s: State, t: Tid, f: Fid) {
    t in s.threads && s.threads[t].pc.Working? && s.threads[t].pc.frame == f
  }

  // ----- Waiting ends -----

  /** t sleeps until u ends its operation. */
  predicate WaitsFor(s: State, t: Tid, u: Tid) {
    t in s.threads && s.threads[t].pc.Asleep? && Owns(s, u, s.threads[t].pc.frame)
  }

  /** The thread at work on a frame of a bottom object is in that object's operation, not in another
      pframe_get, and can end it when the processor is free. */
  lemma BottomWorker(s: State, t: Tid, g: Fid)
    requires Inv(s) && g in s.frames && !IsShadow(s, s.frames[g].key.obj) && Owns(s, t, g)
    ensures OnlyWorks(s, t, g)
    ensures s.running.None? ==> Enabled(s, Finish(t, true))
  {
    assert ThreadOk(s, t, s.threads[t]);
  }

  /** A worker that sleeps does so on a frame of a bottom object. */
  lemma SleepingWorker(s: State, t: Tid, f: Fid)
    requires Inv(s) && Owns(s, t, f) && s.threads[t].pc.Asleep?
    ensures s.threads[t].outer == Some(f) && IsShadow(s, s.frames[f].key.obj)
    ensures var g := s.threads[t].pc.frame; g in s.frames && !IsShadow(s, s.frames[g].key.obj)
  {
    InnerIsBottom(s, t);
    assert ThreadOk(s, t, s.threads[t]);
  }

  /** Waiting workers form no cycle: who waits for a waiting thread waits for the second and last time. */
  lemma NoWaitCycle(s: State, es: seq<Event>, t: Tid, u: Tid, v: Tid)
    requires Initial(s) && WaitsFor(Run(s, es), t, u) && WaitsFor(Run(s, es), u, v)
    ensures t != u && u != v && v != t
    ensures !Run(s, es).threads[v].pc.Asleep?
    ensures OnlyWorks(Run(s, es), v, Run(s, es).threads[u].pc.frame)
  {
    RunInv(s, es);
    var r := Run(s, es);
    SleepingWorker(r, u, r.threads[t].pc.frame);
    BottomWorker(r, v, r.threads[u].pc.frame);
  }

  /** Some event of t is enabled. */
  ghost predicate CanMove(s: State, t: Tid) {
    exists e: Event :: e.t == t && Enabled(s, e)
  }

  /** No deadlock: whenever a thread sleeps and the processor is free, the thread it waits for, or the one
      that thread waits for in turn, can make its next step. */
  lemma SleepEnds(s: State, es: seq<Event>, t: Tid)
    requires Initial(s) && t in Run(s, es).threads && Run(s, es).threads[t].pc.Asleep?
    requires Run(s, es).running.None?
    ensures exists u :: WaitsFor(Run(s, es), t, u) &&
              (CanMove(Run(s, es), u) || exists v :: WaitsFor(Run(s, es), u, v) && CanMove(Run(s, es), v))
  {
    RunInv(s, es);
    var r := Run(s, es);
    var f := r.threads[t].pc.frame;
    hide Run, Inv;
    SleepersFrame(r, t);
    var u :| Owns(r, u, f);
    assert WaitsFor(r, t, u);
    if r.threads[u].pc.Asleep? {
      SleepingWorker(r, u, f);
      var g := r.threads[u].pc.frame;
      SleepersFrame(r, u);
      var v :| Owns(r, v, g);
      BottomWorker(r, v, g);
      assert Enabled(r, Finish(v, true)) && Finish(v, true).t == v;
      assert WaitsFor(r, u, v) && CanMove(r, v);
    } else {
      WorkerMoves(r, u, f);
    }
  }

  /** A worker that is awake can make its next step: end an operation, look for the page below, or go on
      with its inner pframe_get. */
  lemma WorkerMoves(s: State, t: Tid, f: Fid)
    requires Inv(s) && s.running.None? && Owns(s, t, f) && !s.threads[t].pc.Asleep?
    ensures CanMove(s, t)
  {
    assert ThreadOk(s, t, s.threads[t]);
    var th := s.threads[t];
    if ShadowFill(s, th) {
      var key := s.frames[th.pc.frame].key;
      var source := FirstResident(s, s.below[key.obj], key.page);
      assert Enabled(s, Scan(t, source)) && Scan(t, source).t == t;
    } else if th.pc.Working? {
      assert Enabled(s, Finish(t, false)) && Finish(t, false).t == t;
    } else {
      assert th.pc.Retry?;
      assert Enabled(s, Get(t, th.pc.key, 0)) && Get(t, th.pc.key, 0).t == t;
    }
  }

  /** The loop of a shadow fill always comes to a result. */
  lemma {:induction false} FirstResident(s: State, chain: seq<nat>, page: nat) returns (source: Option<Fid>)
    ensures Finds(s, chain, page, source)
  {
    if chain == [] {
      source := None;
    } else if f :| f in s.frames && s.frames[f].key == Key(chain[0], page) {
      source := Some(f);
      assert chain[0] == s.frames[f].key.obj;
    } else {
      source := FirstResident(s, chain[1..], page);
      assert !Resident(s, Key(chain[0], page));
      FindsMore(s, chain, page, source);
    }
  }

  lemma FindsMore(s: State, chain: seq<nat>, page: nat, source: Option<Fid>)
    requires chain != [] && !Resident(s, Key(chain[0], page)) && Finds(s, chain[1..], page, source)
    ensures Finds(s, chain, page, source)
  {
    if source.Some? {
      var i :| 0 <= i < |chain[1..]| && chain[1..][i] == s.frames[source.value].key.obj &&
               forall j | 0 <= j < i :: !Resident(s, Key(chain[1..][j], page));
      assert chain[i + 1] == s.frames[source.value].key.obj;
      forall j | 0 <= j < i + 1
        ensures !Resident(s, Key(chain[j], page))
      {
        if j > 0 { assert chain[1..][j - 1] == chain[j]; }
      }
    } else {
      forall i | 0 <= i < |chain|
        ensures !Resident(s, Key(chain[i], page))
      {
        if i > 0 { assert chain[1..][i - 1] == chain[i]; }
      }
    }
  }
}
