/** Runs of the busy/wait protocol in which what a page shows changes although nobody writes to it. */
module Races {
  import opened Wrappers
  import opened Words
  import opened Busy
  import opened Contents

  /** A page frame that nobody waits for. */
  function Page(o: nat, busy: bool, data: nat, pins: nat): Frame {
    Frame(Key(o, 0), busy, !busy, data, false, pins, {})
  }

  /** Object 12 over 11 over the file 10, whose page 0 is 7 on disk; threads 1 and 2. */
  function World(frames: map<Fid, Frame>, a: Thread, b: Thread, running: Option<Tid>): State {
    State(map[11 := [10], 12 := [11, 10]], {10}, map[Key(10, 0) := 7], frames, |frames|, map[1 := a, 2 := b], running)
  }

  function Quiet(): Thread { Thread(None, Idle) }

  lemma WorldStarts()
    ensures Initial(World(map[], Quiet(), Quiet(), None))
  {
  }

  lemma RunNext(s: State, es: seq<Event>, n: nat, q: State)
    requires n < |es| && Run(s, es[..n]) == q && Enabled(q, es[n])
    ensures Run(s, es[..n + 1]) == Step(q, es[n])
  {
    assert es[..n + 1][..n] == es[..n];
  }

  function Race0(): State {
    World(map[],
          Quiet(), Quiet(), None)
  }

  function Race1(): State {
    World(map[0 := Page(12, true, 0, 0)],
          Thread(None, Working(0, Fill)), Quiet(), None)
  }

  function Race2(): State {
    World(map[0 := Page(12, true, 0, 0)],
          Thread(Some(0), Retry(Key(10, 0))), Quiet(), None)
  }

  function Race3(): State {
    World(map[0 := Page(12, true, 0, 0), 1 := Page(11, true, 0, 0)],
          Thread(Some(0), Retry(Key(10, 0))), Thread(None, Working(1, Fill)), None)
  }

  function Race4(): State {
    World(map[0 := Page(12, true, 0, 0), 1 := Page(11, true, 0, 0)],
          Thread(Some(0), Retry(Key(10, 0))), Thread(Some(1), Retry(Key(10, 0))), None)
  }

  function Race5(): State {
    World(map[0 := Page(12, true, 0, 0), 1 := Page(11, true, 0, 0), 2 := Page(10, true, 0, 0)],
          Thread(Some(0), Retry(Key(10, 0))), Thread(Some(1), Working(2, Fill)), None)
  }

  function Race6(): State {
    World(map[0 := Page(12, true, 0, 0), 1 := Page(11, true, 0, 0), 2 := Page(10, false, 7, 0)],
          Thread(Some(0), Retry(Key(10, 0))), Thread(Some(1), Got(2, Key(10, 0))), Some(2))
  }

  function Race7(): State {
    World(map[0 := Page(12, true, 0, 0), 1 := Page(11, false, 7, 1), 2 := Page(10, false, 7, 0)],
          Thread(Some(0), Retry(Key(10, 0))), Thread(None, Got(1, Key(11, 0))), Some(2))
  }

  function Race8(): State {
    World(map[0 := Page(12, true, 0, 0), 1 := Page(11, false, 7, 1), 2 := Page(10, false, 7, 0)],
          Thread(Some(0), Retry(Key(10, 0))), Thread(None, Got(2, Key(10, 0))), Some(2))
  }

  function Race9(): State {
    World(map[0 := Page(12, true, 0, 0), 1 := Page(11, false, 7, 1), 2 := Page(10, false, 8, 0)],
          Thread(Some(0), Retry(Key(10, 0))), Thread(None, Got(2, Key(10, 0))), Some(2))
  }

  function Race10(): State {
    World(map[0 := Page(12, true, 0, 0), 1 := Page(11, false, 7, 1), 2 := Page(10, false, 8, 0)],
          Thread(Some(0), Retry(Key(10, 0))), Quiet(), None)
  }

  function Race11(): State {
    World(map[0 := Page(12, true, 0, 0), 1 := Page(11, false, 7, 1), 2 := Page(10, false, 8, 0)],
          Thread(Some(0), Got(2, Key(10, 0))), Quiet(), Some(1))
  }

  function Race12(): State {
    World(map[0 := Page(12, false, 8, 1), 1 := Page(11, false, 7, 1), 2 := Page(10, false, 8, 0)],
          Thread(None, Got(0, Key(12, 0))), Quiet(), Some(1))
  }

  /** Both threads fill a shadow page, the upper one first, and both need the bottom page. */
  lemma RaceStep1()
    ensures Enabled(Race0(), Get(1, Key(12, 0), 0)) && Step(Race0(), Get(1, Key(12, 0), 0)) == Race1()
  {
    GetMiss(Race0(), 1, Key(12, 0), 0);
  }

  lemma RaceStep2()
    ensures Enabled(Race1(), Scan(1, None)) && Step(Race1(), Scan(1, None)) == Race2()
  {
  }

  lemma RaceStep3()
    ensures Enabled(Race2(), Get(2, Key(11, 0), 0)) && Step(Race2(), Get(2, Key(11, 0), 0)) == Race3()
  {
    GetMiss(Race2(), 2, Key(11, 0), 0);
  }

  lemma RaceStep4()
    ensures Enabled(Race3(), Scan(2, None)) && Step(Race3(), Scan(2, None)) == Race4()
  {
  }

  lemma RaceStep5()
    ensures Enabled(Race4(), Get(2, Key(10, 0), 0)) && Step(Race4(), Get(2, Key(10, 0), 0)) == Race5()
  {
    GetMiss(Race4(), 2, Key(10, 0), 0);
  }

  /** Thread 2 brings in the bottom page and its own. */
  lemma RaceStep6()
    ensures Enabled(Race5(), Finish(2, true)) && Step(Race5(), Finish(2, true)) == Race6()
  {
  }

  lemma RaceStep7()
    ensures Enabled(Race6(), Return(2)) && Step(Race6(), Return(2)) == Race7()
  {
  }

  lemma RaceStep8()
    ensures Enabled(Race7(), Get(2, Key(10, 0), 0)) && Step(Race7(), Get(2, Key(10, 0), 0)) == Race8()
  {
    GetHit(Race7(), 2, Key(10, 0), 0, 2);
  }

  /** It writes to the bottom page. */
  lemma RaceStep9()
    ensures Enabled(Race8(), Write(2, 8)) && Step(Race8(), Write(2, 8)) == Race9()
  {
  }

  lemma RaceStep10()
    ensures Enabled(Race9(), Leave(2)) && Step(Race9(), Leave(2)) == Race10()
  {
  }

  /** Thread 1 comes to copy the bottom page. */
  lemma RaceStep11()
    ensures Enabled(Race10(), Get(1, Key(10, 0), 0)) && Step(Race10(), Get(1, Key(10, 0), 0)) == Race11()
  {
    GetHit(Race10(), 1, Key(10, 0), 0, 2);
  }

  lemma RaceStep12()
    ensures Enabled(Race11(), Return(1)) && Step(Race11(), Return(1)) == Race12()
  {
  }

  /** Up to thread 1 being back from its inner pframe_get. */
  function RaceEvents(): seq<Event> {
    [Get(1, Key(12, 0), 0), Scan(1, None), Get(2, Key(11, 0), 0), Scan(2, None),
     Get(2, Key(10, 0), 0), Finish(2, true), Return(2), Get(2, Key(10, 0), 0),
     Write(2, 8), Leave(2), Get(1, Key(10, 0), 0)]
  }

  /** The states it goes through. */
  function RaceAt(n: nat): State
    requires n <= 11
  {
    [Race0(), Race1(), Race2(), Race3(), Race4(), Race5(), Race6(), Race7(), Race8(), Race9(), Race10(), Race11()][n]
  }

  lemma RaceNext(n: nat)
    requires n < 11
    ensures Enabled(RaceAt(n), RaceEvents()[n]) && Step(RaceAt(n), RaceEvents()[n]) == RaceAt(n + 1)
  {
    hide Step, Enabled, Race0, Race1, Race2, Race3, Race4, Race5, Race6, Race7, Race8, Race9, Race10, Race11;
    match n
    case 0 => RaceStep1();
    case 1 => RaceStep2();
    case 2 => RaceStep3();
    case 3 => RaceStep4();
    case 4 => RaceStep5();
    case 5 => RaceStep6();
    case 6 => RaceStep7();
    case 7 => RaceStep8();
    case 8 => RaceStep9();
    case 9 => RaceStep10();
    case 10 => RaceStep11();
  }

  lemma {:induction false} RaceRuns(n: nat)
    requires n <= 11
    ensures Run(Race0(), RaceEvents()[..n]) == RaceAt(n)
  {
    hide Step, Enabled, Race0, Race1, Race2, Race3, Race4, Race5, Race6, Race7, Race8, Race9, Race10, Race11;
    if n == 0 {
      assert RaceEvents()[..0] == [];
    } else {
      RaceRuns(n - 1);
      RaceNext(n - 1);
      hide RaceAt, RaceEvents, Run;
      RunNext(Race0(), RaceEvents(), n - 1, RaceAt(n - 1));
    }
  }

  lemma Race11Shows()
    ensures Shown(Race11(), Key(12, 0)) == 7
  {
    var s := Race11();
    NotHeld(s, Key(12, 0));
    assert s.frames[1].key == Key(11, 0);
    HeldAt(s, 1);
    ShownBelow(s, Key(12, 0));
  }

  lemma Race12Shows()
    ensures Shown(Race12(), Key(12, 0)) == 8
  {
    assert Race12().frames[0].key == Key(12, 0);
    HeldAt(Race12(), 0);
  }

  /** A write to the bottom page while a shadow fill is getting it: the fill then copies the new page, over
      the old one that the object between holds. */
  lemma WriteUnderExample()
    ensures Initial(Race0()) && Enabled(Race8(), Write(2, 8)) && Disturbs(Race8(), Write(2, 8))
    ensures Run(Race0(), RaceEvents()) == Race11() && Enabled(Race11(), Return(1))
    ensures Shown(Race11(), Key(12, 0)) == 7 && Shown(Step(Race11(), Return(1)), Key(12, 0)) == 8
  {
    hide Run, Step, Enabled, Shown, Disturbs, Initial, RaceEvents, Race0, Race8, Race11, Race12;
    RaceStarts();
    DisturbsRace();
    RaceReached();
    RaceStep12();
    Race11Shows();
    Race12Shows();
  }

  lemma RaceStarts()
    ensures Initial(Race0())
  {
    WorldStarts();
  }

  lemma RaceReached()
    ensures Run(Race0(), RaceEvents()) == Race11()
  {
    hide Run, Race0, Race11;
    RaceRuns(11);
    assert RaceEvents()[..11] == RaceEvents();
  }

  lemma DisturbsRace()
    ensures Enabled(Race8(), Write(2, 8)) && Disturbs(Race8(), Write(2, 8))
  {
    RaceStep9();
    assert Race8().frames[1].key == Key(11, 0);
    HeldAt(Race8(), 1);
    assert Target(Race8(), Write(2, 8)) == Key(10, 0);
    assert Differs(Race8(), 1, Target(Race8(), Write(2, 8)), 11, 8);
  }

  // ----- Copying a frame that is still being filled -----

  function Early0(): State {
    World(map[], Quiet(), Quiet(), None)
  }

  function Early1(): State {
    World(map[0 := Page(10, true, 5, 0)], Thread(None, Working(0, Fill)), Quiet(), None)
  }

  function Early2(): State {
    World(map[0 := Page(10, true, 5, 0), 1 := Page(11, true, 5, 0)],
          Thread(None, Working(0, Fill)), Thread(None, Working(1, Fill)), None)
  }

  function Early3(): State {
    World(map[0 := Page(10, true, 5, 0), 1 := Page(11, false, 5, 1)],
          Thread(None, Working(0, Fill)), Thread(None, Got(1, Key(11, 0))), Some(2))
  }

  lemma EarlyStep1()
    ensures var e := Get(1, Key(10, 0), 5); Enabled(Early0(), e) && Step(Early0(), e) == Early1()
  {
    GetMiss(Early0(), 1, Key(10, 0), 5);
  }

  lemma EarlyStep2()
    ensures var e := Get(2, Key(11, 0), 5); Enabled(Early1(), e) && Step(Early1(), e) == Early2()
  {
    GetMiss(Early1(), 2, Key(11, 0), 5);
  }

  lemma EarlyStep3()
    ensures var e := Scan(2, Some(0)); Enabled(Early2(), e) && Step(Early2(), e) == Early3()
  {
    assert Early2().below[11][0] == Early2().frames[0].key.obj;
  }

  lemma EarlyShows()
    ensures Shown(Early0(), Key(11, 0)) == 7 && Shown(Early2(), Key(11, 0)) == 7
  {
    NotHeld(Early2(), Key(11, 0));
    NotHeld(Early2(), Key(10, 0));
    ShownBelow(Early2(), Key(11, 0));
    NotHeld(Early0(), Key(11, 0));
    NotHeld(Early0(), Key(10, 0));
    ShownBelow(Early0(), Key(11, 0));
  }

  /** Thread 1 is filling the bottom page when thread 2 fills the shadow page: it finds the frame of the
      bottom page, copies what is not there yet, and pframe_get hands it out. */
  lemma EarlyCopyExample()
    ensures Initial(Early0()) && Shown(Early0(), Key(11, 0)) == 7
    ensures var es := [Get(1, Key(10, 0), 5), Get(2, Key(11, 0), 5), Scan(2, Some(0))];
            var r := Run(Early0(), es);
            && 2 in r.threads && r.threads[2] == Thread(None, Got(1, Key(11, 0)))
            && 1 in r.frames && r.frames[1].filled && r.frames[1].data == 5
    ensures Enabled(Early2(), Scan(2, Some(0))) && CopiesWrong(Early2(), Scan(2, Some(0)))
  {
    hide Run, Step, Enabled, Shown, Initial, CopiesWrong, Early0;
    EarlyStarts();
    EarlyShows();
    EarlyIsWrong();
    EarlyReached();
  }

  lemma EarlyStarts()
    ensures Initial(Early0())
  {
    WorldStarts();
  }

  lemma EarlyIsWrong()
    ensures Enabled(Early2(), Scan(2, Some(0))) && CopiesWrong(Early2(), Scan(2, Some(0)))
  {
    EarlyStep3();
    EarlyShows();
    hide Shown;
  }

  lemma EarlyReached()
    ensures Run(Early0(), [Get(1, Key(10, 0), 5), Get(2, Key(11, 0), 5), Scan(2, Some(0))]) == Early3()
  {
    var es := [Get(1, Key(10, 0), 5), Get(2, Key(11, 0), 5), Scan(2, Some(0))];
    assert es[..0] == [] && es[..3] == es && Run(Early0(), es[..0]) == Early0();
    hide Run, Step, Enabled, Early0, Early1, Early2, Early3;
    EarlyStep1();
    EarlyStep2();
    EarlyStep3();
    RunNext(Early0(), es, 0, Early0());
    RunNext(Early0(), es, 1, Early1());
    RunNext(Early0(), es, 2, Early2());
  }
}
