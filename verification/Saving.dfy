/** What the dirty flag promises under the busy/wait protocol (kernel/mm/pframe.c): a clean page of a file is
    on disk, but for writes that nobody has told the cache of. */
module Saving {
  import opened Wrappers
  import opened Words
  import opened Busy
  import opened Contents

  /** Thread t is cleaning f. */
  predicate Cleans(s: State, t: Tid, f: Fid) {
    t in s.threads && s.threads[t].pc == Working(f, Clean)
  }

  ghost predicate BeingCleaned(s: State, f: Fid) {
    exists t :: Cleans(s, t, f)
  }

  predicate OfFile(s: State, o: nat) {
    o in s.files && !IsShadow(s, o)
  }

  /** The frame of a file page counts as clean, nobody is cleaning it, and the disk has something else. */
  ghost predicate Unsaved(s: State, f: Fid) {
    && f in s.frames && s.frames[f].filled && OfFile(s, s.frames[f].key.obj) && !s.frames[f].dirty
    && s.frames[f].data != Store(s, s.frames[f].key) && !BeingCleaned(s, f)
  }

  /** A frame that is being cleaned is not dirty. */
  ghost predicate CleaningOk(s: State) {
    forall t, f | Cleans(s, t, f) && f in s.frames :: !s.frames[f].dirty
  }

  // ----- What a step does to a frame -----

  /** The frame an operation that ends was for. */
  predicate Ends(s: State, e: Event, f: Fid)
    requires Enabled(s, e)
  {
    match e
    case Scan(t, source) => source.Some? && s.threads[t].pc.frame == f
    case Return(t) => s.threads[t].outer == Some(f)
    case Finish(t, _) => s.threads[t].pc.frame == f
    case _ => false
  }

  predicate Writes(s: State, e: Event, f: Fid)
    requires Enabled(s, e)
  {
    e.Write? && s.threads[e.t].pc.frame == f
  }

  predicate SameFrame(x: Frame, y: Frame) {
    x.key == y.key && x.filled == y.filled && x.data == y.data && x.dirty == y.dirty
  }

  /** What the end of an operation does to frames, disk and the other threads. */
  lemma EndEffect(s: State, t: Tid, ok: bool, data: nat, pins: nat, g: Fid, u: Tid)
    requires t in s.threads && s.threads[t].pc.Working? && s.threads[t].pc.frame in s.frames
    ensures var f, work := s.threads[t].pc.frame, s.threads[t].pc.work;
            var r := FinishStep(s, t, ok, data, pins);
            && r.below == s.below && r.files == s.files && r.disk == Synced(s, f, work, ok)
            && (g in r.frames <==> g in s.frames && !(g == f && Filling(work) && !ok))
            && (g in r.frames && g != f ==> SameFrame(r.frames[g], s.frames[g]))
            && (f in r.frames ==> SameFrame(r.frames[f], Done(s.frames[f], work, ok, data, pins)))
            && (u in r.threads <==> u in s.threads) && (u == t ==> r.threads[t].pc != Working(g, Clean))
            && (u in s.threads && u != t ==>
                  (r.threads[u].pc == Working(g, Clean) <==> s.threads[u].pc == Working(g, Clean)))
  {
  }

  /** A frame that the step is not about is as it was, up to its waiters. */
  lemma OtherFrame(s: State, e: Event, f: Fid)
    requires Inv(s) && Enabled(s, e) && f in s.frames && !Ends(s, e, f) && !Writes(s, e, f)
    requires !(e.StartClean? && e.f == f)
    ensures var r := Step(s, e); f in r.frames ==> SameFrame(r.frames[f], s.frames[f])
  {
    FrameOld(s, f);
    hide Inv, FinishStep, Finds, Writable;
    match e
    case Scan(t, source) => if source.Some? { EndEffect(s, t, true, s.frames[source.value].data, 1, f, t); }
    case Return(t) => EndEffect(Resume(s, t), t, true, s.frames[s.threads[t].pc.frame].data, 1, f, t);
    case Finish(t, ok) => EndEffect(s, t, ok, EndData(s, t), EndPins(s, t), f, t);
    case _ => PlainFrame(s, e, f);
  }

  lemma FrameOld(s: State, f: Fid)
    requires Inv(s) && f in s.frames
    ensures f < s.next
  {
  }

  lemma PlainFrame(s: State, e: Event, f: Fid)
    requires Enabled(s, e) && f in s.frames && f < s.next && !Writes(s, e, f) && !(e.StartClean? && e.f == f)
    requires !e.Scan? && !e.Return? && !e.Finish?
    ensures var r := Step(s, e); f in r.frames ==> SameFrame(r.frames[f], s.frames[f])
  {
    hide Finds, Writable;
  }

  function EndData(s: State, t: Tid): nat
    requires t in s.threads && s.threads[t].pc.Working? && s.threads[t].pc.frame in s.frames
  {
    Store(s, s.frames[s.threads[t].pc.frame].key)
  }

  function EndPins(s: State, t: Tid): nat
    requires t in s.threads && s.threads[t].pc.Working? && s.threads[t].pc.frame in s.frames
  {
    if s.threads[t].pc.work.Fill? && s.frames[s.threads[t].pc.frame].key.obj !in s.files then 1 else 0
  }

  /** Objects and files stay; the disk changes where a frame of a file was cleaned. */
  lemma StoreAfter(s: State, e: Event)
    requires Enabled(s, e)
    ensures var r := Step(s, e);
            && r.below == s.below && r.files == s.files
            && r.disk == if e.Finish? then Synced(s, s.threads[e.t].pc.frame, s.threads[e.t].pc.work, e.ok) else s.disk
  {
    hide FinishStep;
    match e
    case Scan(t, source) => if source.Some? { EndEffect(s, t, true, s.frames[source.value].data, 1, 0, t); }
    case Return(t) => EndEffect(Resume(s, t), t, true, s.frames[s.threads[t].pc.frame].data, 1, 0, t);
    case Finish(t, ok) => EndEffect(s, t, ok, EndData(s, t), EndPins(s, t), 0, t);
    case _ =>
  }

  /** Who cleans f: whoever did, unless its operation ended, and the thread that starts to. */
  lemma CleansAfter(s: State, e: Event, t: Tid, f: Fid)
    requires Enabled(s, e)
    ensures Cleans(Step(s, e), t, f) <==>
            (Cleans(s, t, f) && !(e.Finish? && e.t == t)) || (e.StartClean? && e.t == t && e.f == f)
  {
    hide FinishStep;
    match e
    case Scan(u, source) => if source.Some? { EndEffect(s, u, true, s.frames[source.value].data, 1, f, t); }
    case Return(u) => EndEffect(Resume(s, u), u, true, s.frames[s.threads[u].pc.frame].data, 1, f, t);
    case Finish(u, ok) => EndEffect(s, u, ok, EndData(s, u), EndPins(s, u), f, t);
    case _ =>
  }

  // ----- Which frames are unsaved -----

  lemma StoreSame(s: State, e: Event, f: Fid)
    requires Inv(s) && Enabled(s, e) && f in s.frames && !Ends(s, e, f)
    ensures Store(Step(s, e), s.frames[f].key) == Store(s, s.frames[f].key)
    ensures OfFile(Step(s, e), s.frames[f].key.obj) == OfFile(s, s.frames[f].key.obj)
  {
    StoreAfter(s, e);
    hide Step;
    assert OneFrameEach(s);
  }

  lemma OtherUnsaved(s: State, e: Event, f: Fid)
    requires Inv(s) && Enabled(s, e) && f in s.frames && !Ends(s, e, f) && !Writes(s, e, f)
    requires !(e.StartClean? && e.f == f)
    ensures Unsaved(Step(s, e), f) <==> f in Step(s, e).frames && Unsaved(s, f)
  {
    OtherFrame(s, e, f);
    StoreSame(s, e, f);
    forall t
      ensures Cleans(Step(s, e), t, f) <==> Cleans(s, t, f)
    {
      CleansAfter(s, e, t, f);
    }
    hide Step, Inv, Enabled;
  }

  lemma WriteUnsaved(s: State, e: Event, f: Fid)
    requires Inv(s) && Enabled(s, e) && f in s.frames && Writes(s, e, f)
    ensures var x := s.frames[f];
            Unsaved(Step(s, e), f) <==> OfFile(s, x.key.obj) && !x.dirty && e.data != Store(s, x.key)
  {
    StoreSame(s, e, f);
    WriteFrame(s, e, f);
    forall t
      ensures !Cleans(Step(s, e), t, f)
    {
      CleansAfter(s, e, t, f);
      NotCleaned(s, t, f);
    }
    hide Step, Inv, Enabled;
  }

  lemma NotCleaned(s: State, t: Tid, f: Fid)
    requires Inv(s) && f in s.frames && !s.frames[f].busy
    ensures !Cleans(s, t, f)
  {
    if t in s.threads { assert ThreadOk(s, t, s.threads[t]); }
  }

  lemma WriteFrame(s: State, e: Event, f: Fid)
    requires Inv(s) && Enabled(s, e) && f in s.frames && Writes(s, e, f)
    ensures f in Step(s, e).frames && SameFrame(Step(s, e).frames[f], s.frames[f].(data := e.data))
    ensures s.frames[f].filled && !s.frames[f].busy
  {
    assert ThreadOk(s, e.t, s.threads[e.t]);
  }

  /** The shadow fills end on frames of shadow objects. */
  lemma ShadowEnds(s: State, e: Event, f: Fid)
    requires Inv(s) && Enabled(s, e) && f in s.frames && Ends(s, e, f) && !e.Finish?
    ensures !OfFile(s, s.frames[f].key.obj) && f in Step(s, e).frames && Step(s, e).frames[f].key == s.frames[f].key
  {
    assert ThreadOk(s, e.t, s.threads[e.t]);
    hide Inv, FinishStep;
    match e
    case Scan(t, source) => EndEffect(s, t, true, s.frames[source.value].data, 1, f, t);
    case Return(t) => EndEffect(Resume(s, t), t, true, s.frames[s.threads[t].pc.frame].data, 1, f, t);
  }

  lemma FinishUnsaved(s: State, t: Tid, ok: bool, f: Fid)
    requires Inv(s) && Enabled(s, Finish(t, ok)) && s.threads[t].pc.frame == f
    ensures var r := Step(s, Finish(t, ok));
            Unsaved(r, f) <==> f in r.frames && Unsaved(s, f) && !(ok && s.threads[t].pc.work.Dirty?)
  {
    var r := Step(s, Finish(t, ok));
    StoreAfter(s, Finish(t, ok));
    EndEffect(s, t, ok, EndData(s, t), EndPins(s, t), f, t);
    FinishOwner(s, t, f);
    forall u
      ensures !Cleans(r, u, f)
    {
      CleansAfter(s, Finish(t, ok), u, f);
    }
    assert s.threads[t].pc.work.Clean? ==> Cleans(s, t, f);
    hide FinishStep, Inv;
  }

  /** The thread that ends an operation on f is the only one at work on it; an unfilled frame is being filled. */
  lemma FinishOwner(s: State, t: Tid, f: Fid)
    requires Inv(s) && t in s.threads && s.threads[t].pc.Working? && s.threads[t].pc.frame == f
    ensures forall u | u != t :: !Cleans(s, u, f)
    ensures f in s.frames && (Filling(s.threads[t].pc.work) <==> !s.frames[f].filled)
    ensures s.threads[t].pc.work.Failed? ==> IsShadow(s, s.frames[f].key.obj)
  {
    assert ThreadOk(s, t, s.threads[t]);
    forall u | u != t
      ensures !Cleans(s, u, f)
    {
      assert Owns(s, t, f);
      assert Cleans(s, u, f) ==> Owns(s, u, f);
    }
  }

  /** Exactly which frames are unsaved after a step: one that was written with something else than the disk has
      while it did not count as dirty, and one that was unsaved before and is still there, unless pframe_dirty
      just succeeded on it. Fills, cleaning, failed or not, and everything else leave none behind. */
  lemma UnsavedExactly(s: State, e: Event, f: Fid)
    requires Inv(s) && Enabled(s, e)
    ensures Unsaved(Step(s, e), f) <==>
            && f in s.frames && f in Step(s, e).frames
            && if e.Write? && s.threads[e.t].pc.frame == f then
                 OfFile(s, s.frames[f].key.obj) && !s.frames[f].dirty && e.data != Store(s, s.frames[f].key)
               else Unsaved(s, f) && !(e.Finish? && e.ok && s.threads[e.t].pc == Working(f, Dirty))
  {
    StoreAfter(s, e);
    if f !in s.frames {
      if f in Step(s, e).frames { NewUnfilled(s, e, f); }
    } else if Writes(s, e, f) {
      WriteUnsaved(s, e, f);
      WriteFrame(s, e, f);
    } else if e.StartClean? && e.f == f {
      CleansAfter(s, e, e.t, f);
      assert BeingCleaned(Step(s, e), f);
    } else if !Ends(s, e, f) {
      OtherUnsaved(s, e, f);
    } else if e.Finish? {
      FinishUnsaved(s, e.t, e.ok, f);
    } else {
      ShadowEnds(s, e, f);
    }
  }

  lemma NewUnfilled(s: State, e: Event, f: Fid)
    requires Enabled(s, e) && f !in s.frames && f in Step(s, e).frames
    ensures !Step(s, e).frames[f].filled
  {
    hide FinishStep;
    match e
    case Scan(t, source) => if source.Some? { EndEffect(s, t, true, s.frames[source.value].data, 1, f, t); }
    case Return(t) => EndEffect(Resume(s, t), t, true, s.frames[s.threads[t].pc.frame].data, 1, f, t);
    case Finish(t, ok) => EndEffect(s, t, ok, EndData(s, t), EndPins(s, t), f, t);
    case _ =>
  }

  // ----- Cleaning -----

  lemma CleaningStep(s: State, e: Event)
    requires Inv(s) && CleaningOk(s) && Enabled(s, e)
    ensures CleaningOk(Step(s, e))
  {
    var r := Step(s, e);
    forall t, f | Cleans(r, t, f) && f in r.frames
      ensures !r.frames[f].dirty
    {
      CleansAfter(s, e, t, f);
      if e.StartClean? && e.t == t && e.f == f {
        StartedClean(s, t, f);
      } else {
        StillCleaned(s, e, t, f);
        OtherFrame(s, e, f);
      }
    }
  }

  lemma StartedClean(s: State, t: Tid, f: Fid)
    requires Enabled(s, StartClean(t, f))
    ensures var r := Step(s, StartClean(t, f)); f in r.frames && !r.frames[f].dirty
  {
  }

  /** No step but its end is about a frame that is being cleaned. */
  lemma StillCleaned(s: State, e: Event, t: Tid, f: Fid)
    requires Inv(s) && Enabled(s, e) && Cleans(s, t, f) && !(e.Finish? && e.t == t)
    ensures f in s.frames && s.frames[f].busy && !Ends(s, e, f) && !Writes(s, e, f) && !(e.StartClean? && e.f == f)
  {
    assert ThreadOk(s, t, s.threads[t]) && ThreadOk(s, e.t, s.threads[e.t]);
    assert Owns(s, t, f);
    assert Ends(s, e, f) ==> Owns(s, e.t, f);
  }

  /** Over every run: when a clean operation ends, the frame is dirty again if and only if it failed, and
      if it succeeded the disk has what the frame of a file page holds. */
  lemma CleanedExactly(s: State, es: seq<Event>, t: Tid, ok: bool, f: Fid)
    requires Initial(s)
    requires var q := Run(s, es); Enabled(q, Finish(t, ok)) && Cleans(q, t, f)
    ensures var q := Run(s, es);
            var r := Step(q, Finish(t, ok));
            && f in r.frames && f in q.frames && r.frames[f].data == q.frames[f].data
            && (r.frames[f].dirty <==> !ok)
            && (ok && OfFile(r, r.frames[f].key.obj) ==> Store(r, r.frames[f].key) == r.frames[f].data)
  {
    var q := Run(s, es);
    RunInv(s, es);
    RunCleaning(s, es);
    StoreAfter(q, Finish(t, ok));
    EndEffect(q, t, ok, EndData(q, t), EndPins(q, t), f, t);
    FinishOwner(q, t, f);
    hide Run, FinishStep, Inv;
  }

  lemma {:induction false} RunCleaning(s: State, es: seq<Event>)
    requires Initial(s)
    ensures CleaningOk(Run(s, es))
  {
    if es != [] {
      RunCleaning(s, es[..|es| - 1]);
      var r := Run(s, es[..|es| - 1]);
      RunInv(s, es[..|es| - 1]);
      hide Inv, CleaningOk, Step, Enabled;
      if Enabled(r, es[|es| - 1]) { CleaningStep(r, es[|es| - 1]); }
    }
  }

  // ----- Freeing -----

  /** Freeing a clean frame of a file page loses what the page shows if and only if the frame is unsaved. */
  lemma ReleaseLoses(s: State, t: Tid, f: Fid)
    requires Inv(s) && Enabled(s, Release(t, f)) && OfFile(s, s.frames[f].key.obj) && !s.frames[f].dirty
    ensures Drops(s, Release(t, f)) <==> Unsaved(s, f)
  {
    forall u
      ensures !Cleans(s, u, f)
    {
      NotCleaned(s, u, f);
    }
    assert OneFrameEach(s) && s.frames[f].filled;
    hide Inv, Step;
    var key := s.frames[f].key;
    NotHeld(Free(s, f), key);
    assert Chain(Free(s, f), key.obj) == [key.obj];
  }
}
