/** The laws about single steps, taken together: they leave one next state only. */
module StepLaws {
  import opened Wrappers
  import opened KernelSpec
  import opened KernelInvariant
  import opened KernelEffects
  import opened Lifecycle
  import opened Levels

  ghost predicate Frames(s: State, a: Action, s': State) {
    forall t :: t in s'.threads ==> s'.threads[t].frame == FrameAfter(s, a, t)
  }

  ghost predicate Syncs(s: State, a: Action, s': State) {
    forall o :: o in s.syncs && o in s'.syncs ==> s'.syncs[o] == SyncAfter(s, a, o)
  }

  /** What is known of the state s' after a step: the invariant; which threads, semaphores and locks
      there are; each stack, each object, the schedule, the thread to be destroyed; and the level, when
      a thread runs its own code. */
  ghost predicate Laws(s: State, a: Action, s': State) {
    && Inv(s')
    && Exists(s, a, s')
    && Frames(s, a, s') && Syncs(s, a, s')
    && Scheduled(s, a, s')
    && s'.toBeDestroyed == PendingAfter(s, a)
    && (s'.cpu == Executing ==>
          LevelOf(s, s.current).Some? && s'.level == LevelAfter(s, a, s.current, LevelOf(s, s.current).value))
  }

  lemma StepObeys(s: State, a: Action)
    requires Inv(s) && Enabled(s, a)
    ensures Laws(s, a, Step(s, a))
  {
    StepInv(s, a);
    StepExists(s, a);
    StepFrames(s, a);
    StepSyncs(s, a);
    StepScheduled(s, a);
    PendingStep(s, a);
    if Step(s, a).cpu == Executing {
      ExecutingLevel(s, a);
    }
  }

  lemma StepFrames(s: State, a: Action)
    requires Inv(s) && Enabled(s, a)
    ensures Frames(s, a, Step(s, a))
  {
    forall t | t in Step(s, a).threads ensures Step(s, a).threads[t].frame == FrameAfter(s, a, t) {
      StepFrame(s, a, t);
    }
  }

  lemma StepSyncs(s: State, a: Action)
    requires Inv(s) && Enabled(s, a)
    ensures Syncs(s, a, Step(s, a))
  {
    forall o | o in s.syncs && o in Step(s, a).syncs ensures Step(s, a).syncs[o] == SyncAfter(s, a, o) {
      StepSync(s, a, o);
    }
  }

  lemma ExecutingLevel(s: State, a: Action)
    requires Inv(s) && Enabled(s, a) && Step(s, a).cpu == Executing
    ensures LevelOf(s, s.current).Some?
    ensures Step(s, a).level == LevelAfter(s, a, s.current, LevelOf(s, s.current).value)
  {
    StepInv(s, a);
    StepScheduled(s, a);
    StepFrame(s, a, s.current);
    assert ThreadOk(s, s.current) && ThreadOk(Step(s, a), s.current);
    OwnLevel(s, a);
  }

  /** The invariant fixes the status of a thread by its frame, the lists and the CPU. */
  lemma SameStatus(s1: State, s2: State, t: Tid)
    requires t in s1.threads && t in s2.threads && ThreadOk(s1, t) && ThreadOk(s2, t)
    requires s1.threads[t].frame == s2.threads[t].frame
    requires s1.current == s2.current && s1.cpu == s2.cpu && s1.ready == s2.ready && s1.syncs == s2.syncs
    ensures s1.threads[t] == s2.threads[t]
  {}

  lemma SameSyncs(s: State, a: Action, s1: State, s2: State)
    requires Exists(s, a, s1) && Exists(s, a, s2) && Syncs(s, a, s1) && Syncs(s, a, s2)
    ensures s1.syncs == s2.syncs
  {
    assert s1.syncs.Keys == s2.syncs.Keys;
    forall o | o in s1.syncs ensures s1.syncs[o] == s2.syncs[o] {
      assert o in s.syncs || a.NewSem? || a.NewLock?;
    }
  }

  lemma OneNextState(s: State, a: Action, s1: State, s2: State)
    requires Inv(s) && Laws(s, a, s1) && Laws(s, a, s2)
    ensures s1 == s2
  {
    SameSyncs(s, a, s1, s2);
    assert s1.threads.Keys == s2.threads.Keys;
    forall t | t in s1.threads ensures s1.threads[t] == s2.threads[t] {
      SameStatus(s1, s2, t);
    }
    assert s1.threads == s2.threads;
  }

  /** A step of the kernel goes to the state the laws describe, and to no other. */
  lemma LawsDetermineStep(s: State, a: Action, s': State)
    requires Inv(s) && Enabled(s, a)
    ensures Laws(s, a, s') <==> s' == Step(s, a)
  {
    StepObeys(s, a);
    if Laws(s, a, s') {
      OneNextState(s, a, s', Step(s, a));
    }
  }
}
