/** The interrupt level belongs to the thread, although it is one global variable. */
module Levels {
  import opened Wrappers
  import opened KernelSpec
  import opened KernelInvariant
  import opened KernelEffects
  import Lifecycle

  /** The level thread t will see in its own code, wherever it stands now: ThreadRoot turns
      interrupts on for a new thread. */
  function LevelOf(s: State, t: Tid): Option<Level> {
    match FrameOf(s, t)
    case User => Some(s.level)
    case Root => Some(IntOn)
    case InYield(saved) => Some(saved)
    case InWait(_, saved) => Some(saved)
    case _ => None
  }

  /** The level t has after a step: the one it sets itself, otherwise the one it had. */
  function LevelAfter(s: State, a: Action, t: Tid, l: Level): Level {
    if a.SetLevel? && s.current == t then a.level else l
  }

  /** When the current thread is in its own code after a step, it is so at its own level. */
  lemma OwnLevel(s: State, a: Action)
    requires Inv(s) && Enabled(s, a) && LevelOf(s, s.current).Some?
    requires FrameAfter(s, a, s.current) == User
    ensures Step(s, a).level == LevelAfter(s, a, s.current, LevelOf(s, s.current).value)
  {
    assert ThreadOk(s, s.current);
    match a
    case DoResume =>
      DeleteCarcassInv(s);
      var f := FrameOf(s, s.current);
      if f.InWait? {
        TestEffect(DeleteCarcass(s), f.obj, f.saved, s.current, f.obj);
      }
    case P(o) => TestEffect(s.(level := IntOff), o, s.level, s.current, o);
    case Acquire(o) => TestEffect(s.(level := IntOff), o, s.level, s.current, o);
    case _ =>
  }

  /** In every step but its own Finish a thread gets the level it sets itself, and otherwise keeps
      its level, whether the step is its own or another thread's. */
  lemma StepLevel(s: State, a: Action, t: Tid)
    requires Inv(s) && Enabled(s, a) && LevelOf(s, t).Some?
    requires a == DoFinish ==> s.current != t
    ensures LevelOf(Step(s, a), t) == Some(LevelAfter(s, a, t, LevelOf(s, t).value))
  {
    StepFrame(s, a, t);
    assert ThreadOk(s, t);
    if t == s.current && FrameAfter(s, a, t) == User {
      OwnLevel(s, a);
    }
  }

  /** The level that t set last in a run, or l. */
  function LastSet(s: State, run: seq<Action>, t: Tid, l: Level): Level
    requires ValidRun(s, run)
    decreases run
  {
    if run == [] then l else LastSet(Step(s, run[0]), run[1..], t, LevelAfter(s, run[0], t, l))
  }

  lemma {:induction false} FinishedHasNoLevel(s: State, run: seq<Action>, t: Tid)
    requires Inv(s) && ValidRun(s, run) && FrameOf(s, t) in {InFinish, Freed}
    ensures LevelOf(Final(s, run), t) == None
    decreases run
  {
    if run != [] {
      StepInv(s, run[0]);
      Lifecycle.GoneStep(s, run[0], t);
      FinishedHasNoLevel(Step(s, run[0]), run[1..], t);
    }
  }

  lemma {:induction false} LevelKept(s: State, run: seq<Action>, t: Tid)
    requires Inv(s) && ValidRun(s, run) && LevelOf(s, t).Some?
    ensures LevelOf(Final(s, run), t) in {None, Some(LastSet(s, run, t, LevelOf(s, t).value))}
    decreases run
  {
    if run != [] {
      var s' := Step(s, run[0]);
      StepInv(s, run[0]);
      if run[0] == DoFinish && s.current == t {
        FinishInv(s);
        FinishedHasNoLevel(s', run[1..], t);
      } else {
        StepLevel(s, run[0], t);
        LevelKept(s', run[1..], t);
      }
    }
  }

  /** Whatever calls of P, V, Acquire, Release, Yield or Fork a thread made in a run and whatever
      other threads did meanwhile, including setting the level, in its own code it sees the level it
      set itself last, or had before; a forked thread starts with interrupts on. */
  lemma LevelIsPrivate(s: State, run: seq<Action>, t: Tid)
    requires Inv(s) && LevelOf(s, t).Some? && ValidRun(s, run)
    requires Final(s, run).cpu == Executing && Final(s, run).current == t
    ensures Final(s, run).level == LastSet(s, run, t, LevelOf(s, t).value)
  {
    RunInv(s, run);
    LevelKept(s, run, t);
  }

  /** Every SWITCH happens with interrupts off, and so does every pass of the idle loop; a thread
      that starts at ThreadRoot enters its function with interrupts on. */
  lemma SwitchesAreMasked(main: Tid, run: seq<Action>)
    requires ValidRun(Boot(main), run)
    ensures var s := Final(Boot(main), run);
      && (s.cpu in {Switched, Idling} ==> s.level == IntOff)
      && (s.cpu == Switched && FrameOf(s, s.current) == Root ==> Step(s, DoResume).level == IntOn)
  {
    BootInv(main);
    RunInv(Boot(main), run);
  }
}
