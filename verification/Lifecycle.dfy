/** Threads over whole runs: one place each, no failed ASSERT, and what is reclaimed after Finish. */
module Lifecycle {
  import opened Wrappers
  import opened KernelSpec
  import opened KernelInvariant
  import opened KernelEffects

  // ----- one place each -----

  datatype Place =
    | OnCpu
    | OnReady(i: nat)
    | OnQueue(o: Oid, i: nat)
    | Unforked
    | Finished

  ghost predicate At(s: State, t: Tid, p: Place) {
    match p
    case OnCpu => t == s.current && s.cpu in {Executing, Switched}
    case OnReady(i) => i < |s.ready| && s.ready[i] == t
    case OnQueue(o, i) => o in s.syncs && i < |s.syncs[o].queue| && s.syncs[o].queue[i] == t
    case Unforked => FrameOf(s, t) == NotForked
    case Finished => FrameOf(s, t) in {InFinish, Freed}
  }

  function PlaceStatus(p: Place): Status {
    match p
    case OnCpu => Running
    case OnReady(_) => Ready
    case OnQueue(_, _) => Blocked
    case Unforked => JustCreated
    case Finished => Blocked
  }

  lemma PlaceOf(s: State, t: Tid) returns (p: Place)
    requires Inv(s) && t in s.threads
    ensures At(s, t, p) && s.threads[t].status == PlaceStatus(p)
    ensures forall q :: At(s, t, q) ==> q == p
  {
    assert ThreadOk(s, t);
    var f := s.threads[t].frame;
    if f == NotForked {
      p := Unforked;
    } else if f in {InFinish, Freed} {
      p := Finished;
    } else if t == s.current && s.cpu in {Executing, Switched} {
      p := OnCpu;
    } else if t in s.ready {
      var i :| 0 <= i < |s.ready| && s.ready[i] == t;
      p := OnReady(i);
    } else {
      var q := s.syncs[f.obj].queue;
      var i :| 0 <= i < |q| && q[i] == t;
      p := OnQueue(f.obj, i);
    }
    forall q | At(s, t, q) ensures q == p {
      assert q.OnQueue? ==> SyncOk(s, q.o);
    }
  }

  /** In every reachable state a thread is in exactly one place (a place on a list is a list and a
      position, so no list holds a thread twice and no two lists share one), and its status is the
      one of that place. In the idle loop the current thread is on a queue, on the ready list, or
      finished; it is not on the CPU. */
  lemma OnePlaceEach(main: Tid, run: seq<Action>, t: Tid)
    requires ValidRun(Boot(main), run) && t in Final(Boot(main), run).threads
    ensures var s := Final(Boot(main), run);
      exists p :: At(s, t, p) && s.threads[t].status == PlaceStatus(p) && forall q :: At(s, t, q) ==> q == p
  {
    BootInv(main);
    RunInv(Boot(main), run);
    var p := PlaceOf(Final(Boot(main), run), t);
  }

  // ----- nothing crashes -----

  /** In no run does an ASSERT fail, is a thread destroyed twice, or is code marked as not reached
      entered; and no list names a thread that finished. */
  lemma NothingCrashes(main: Tid, run: seq<Action>)
    requires ValidRun(Boot(main), run)
    ensures var s := Final(Boot(main), run);
      && s.cpu != Crashed
      && (s.cpu in {Executing, Switched} ==> !Gone(s, s.current) && s.toBeDestroyed != Some(s.current))
      && (forall t :: t in s.ready ==> !Gone(s, t))
      && (forall o, t :: o in s.syncs && t in s.syncs[o].queue ==> !Gone(s, t))
  {
    BootInv(main);
    RunInv(Boot(main), run);
    var s := Final(Boot(main), run);
    assert ThreadOk(s, s.current);
    forall t | t in s.ready ensures !Gone(s, t) {
      assert ThreadOk(s, t);
    }
    forall o, t | o in s.syncs && t in s.syncs[o].queue ensures !Gone(s, t) {
      assert SyncOk(s, o);
    }
  }

  /** Does the destructor fail its ASSERT, or run a second time? */
  predicate DeleteFails(s: State) {
    s.toBeDestroyed.Some? && (s.toBeDestroyed.value == s.current || FrameOf(s, s.toBeDestroyed.value) == Freed)
  }

  /** Does the code behind the call of Run fail: is the frame one that is never left, or does Sleep
      find interrupts on? */
  predicate ContinueFails(s: State) {
    match FrameOf(s, s.current)
    case InYield(_) => false
    case InWait(o, _) => o in s.syncs ==> MustWait(s.syncs[o]) && s.level == IntOn
    case _ => true
  }

  /** Which failures NothingCrashes excludes, for every state, reachable or not: the program stops
      exactly behind a SWITCH to a thread that does not start at ThreadRoot, in the destructor or in
      what stands behind the call of Run. */
  lemma CrashesExactly(s: State, a: Action)
    requires Enabled(s, a)
    ensures Step(s, a).cpu == Crashed <==> GoesOnInRun(s, a) && (DeleteFails(s) || ContinueFails(s))
  {}

  // ----- finished threads -----

  ghost predicate Gone(s: State, t: Tid) {
    FrameOf(s, t) in {InFinish, Freed}
  }

  /** The thread switched to was suspended in Run before; it does not start at ThreadRoot. */
  predicate GoesOnInRun(s: State, a: Action) {
    a == DoResume && FrameOf(s, s.current) != Root
  }

  /** The step in which the rest of Run destroys a finished thread. */
  predicate DeletesCarcass(s: State, a: Action) {
    GoesOnInRun(s, a) && s.toBeDestroyed.Some?
  }

  /** One step and a thread that finished: it stays as it is unless this step destroys it. */
  lemma GoneStep(s: State, a: Action, t: Tid)
    requires Inv(s) && Enabled(s, a) && Gone(s, t)
    ensures FrameOf(Step(s, a), t) ==
      if DeletesCarcass(s, a) && s.toBeDestroyed.value == t then Freed else FrameOf(s, t)
    ensures DeletesCarcass(s, a) && s.toBeDestroyed.value == t ==> FrameOf(s, t) == InFinish
  {
    StepFrame(s, a, t);
    assert t in s.threads && ThreadOk(s, t) && ThreadOk(s, s.current);
  }

  function CountDestroys(s: State, run: seq<Action>, t: Tid): nat
    requires ValidRun(s, run)
    decreases run
  {
    if run == [] then 0
    else
      var n := CountDestroys(Step(s, run[0]), run[1..], t);
      if DeletesCarcass(s, run[0]) && s.toBeDestroyed == Some(t) then n + 1 else n
  }

  /** A finished thread is never given the CPU again; it is destroyed at most once, and exactly
      once in the runs at whose end it is destroyed. */
  lemma {:induction false} FinishIsFinal(s: State, run: seq<Action>, t: Tid)
    requires Inv(s) && Gone(s, t) && ValidRun(s, run)
    ensures var s' := Final(s, run);
      && Gone(s', t)
      && (FrameOf(s, t) == Freed ==> FrameOf(s', t) == Freed)
      && (s'.cpu in {Executing, Switched} ==> s'.current != t)
      && CountDestroys(s, run, t) == if FrameOf(s, t) == InFinish && FrameOf(s', t) == Freed then 1 else 0
    decreases run
  {
    if run == [] {
      assert ThreadOk(s, t) && ThreadOk(s, s.current);
    } else {
      StepInv(s, run[0]);
      GoneStep(s, run[0], t);
      FinishIsFinal(Step(s, run[0]), run[1..], t);
    }
  }

  // ----- exact reclamation -----

  /** Is some thread that was suspended in Run dispatched before the next Finish? */
  predicate ResumesBeforeFinish(s: State, run: seq<Action>)
    requires ValidRun(s, run)
    decreases run
  {
    run != [] &&
    (GoesOnInRun(s, run[0])
     || (run[0] != DoFinish && ResumesBeforeFinish(Step(s, run[0]), run[1..])))
  }

  function PendingAfter(s: State, a: Action): Option<Tid> {
    if a == DoFinish then Some(s.current) else if DeletesCarcass(s, a) then None else s.toBeDestroyed
  }

  /** The pointer threadToBeDestroyed changes only in Finish and in the rest of Run. */
  lemma PendingStep(s: State, a: Action)
    requires Inv(s) && Enabled(s, a)
    ensures Step(s, a).toBeDestroyed == PendingAfter(s, a)
  {
    match a
    case DoResume => DeleteCarcassInv(s); assert ThreadOk(s, s.current);
    case _ =>
  }

  /** A finished thread nobody points to any more is never destroyed: it has leaked. */
  lemma {:induction false} OverwrittenLeaks(s: State, run: seq<Action>, t: Tid)
    requires Inv(s) && ValidRun(s, run)
    requires FrameOf(s, t) == InFinish && s.toBeDestroyed != Some(t) && (s.current == t ==> s.cpu == Idling)
    ensures FrameOf(Final(s, run), t) == InFinish
    decreases run
  {
    if run != [] {
      StepInv(s, run[0]);
      GoneStep(s, run[0], t);
      PendingStep(s, run[0]);
      assert ThreadOk(s, t) && ThreadOk(s, s.current);
      assert ThreadOk(Step(s, run[0]), t);
      OverwrittenLeaks(Step(s, run[0]), run[1..], t);
    }
  }

  /** The thread that finished last is destroyed if and only if a thread suspended in Run is
      dispatched before the next Finish. A thread that starts in between destroys nothing, because
      it enters at ThreadRoot and not behind SWITCH. */
  lemma {:induction false} ExactReclamation(s: State, run: seq<Action>, t: Tid)
    requires Inv(s) && s.toBeDestroyed == Some(t) && ValidRun(s, run)
    ensures FrameOf(Final(s, run), t) == Freed <==> ResumesBeforeFinish(s, run)
    decreases run
  {
    if run != [] {
      var s' := Step(s, run[0]);
      StepInv(s, run[0]);
      GoneStep(s, run[0], t);
      PendingStep(s, run[0]);
      assert ThreadOk(s, t) && ThreadOk(s, s.current) && ThreadOk(s', t);
      if DeletesCarcass(s, run[0]) {
        FinishIsFinal(s', run[1..], t);
      } else if run[0] == DoFinish {
        OverwrittenLeaks(s', run[1..], t);
      } else {
        ExactReclamation(s', run[1..], t);
      }
    }
  }

  /** Is the current thread still in its first time slice? Being switched to starts a slice; it is
      the first one when the thread starts at ThreadRoot. */
  function FirstSlice(s: State, run: seq<Action>, first: bool): bool
    requires ValidRun(s, run)
    decreases run
  {
    if run == [] then first
    else FirstSlice(Step(s, run[0]), run[1..],
                    if run[0] == DoResume then FrameOf(s, s.current) == Root else first)
  }

  /** The current thread runs its own code, or stands in the idle loop inside its own P or Acquire. */
  predicate InOwnTurn(s: State) {
    s.cpu == Executing || (s.cpu == Idling && FrameOf(s, s.current).InWait?)
  }

  lemma TurnStep(s: State, a: Action)
    requires Inv(s) && Enabled(s, a) && InOwnTurn(Step(s, a)) && Step(s, a).toBeDestroyed.Some?
    ensures if a == DoResume then FrameOf(s, s.current) == Root else InOwnTurn(s) && s.toBeDestroyed.Some?
  {
    PendingStep(s, a);
    assert ThreadOk(s, s.current);
    if s.cpu == Idling {
      StepFrame(s, a, s.current);
    }
    if a == DoFinish {
      StepFrame(s, a, s.current);
    }
  }

  lemma {:induction false} PendingFrom(s: State, run: seq<Action>, first: bool)
    requires Inv(s) && ValidRun(s, run)
    requires InOwnTurn(s) && s.toBeDestroyed.Some? ==> first
    ensures var s' := Final(s, run);
      InOwnTurn(s') && s'.toBeDestroyed.Some? ==> FirstSlice(s, run, first)
    decreases run
  {
    if run != [] {
      var s' := Step(s, run[0]);
      StepInv(s, run[0]);
      if InOwnTurn(s') && s'.toBeDestroyed.Some? {
        TurnStep(s, run[0]);
      }
      PendingFrom(s', run[1..], if run[0] == DoResume then FrameOf(s, s.current) == Root else first);
    }
  }

  /** Outside Run and Finish, so while a thread runs its own code or idles inside its own P or Acquire,
      threadToBeDestroyed is set only in that thread's first time slice. */
  lemma PendingOnlyInFirstSlice(main: Tid, run: seq<Action>)
    requires ValidRun(Boot(main), run)
    ensures var s := Final(Boot(main), run);
      InOwnTurn(s) && s.toBeDestroyed.Some? ==> FirstSlice(Boot(main), run, false)
  {
    BootInv(main);
    PendingFrom(Boot(main), run, false);
  }

  // ----- the leak -----

  /** A thread that finishes while the next thread on the ready list has not started yet leaves that
      thread in its own code, with the pointer still set. */
  lemma PromptFinish(s: State)
    requires Inv(s) && s.cpu == Executing && s.ready != [] && FrameOf(s, s.ready[0]) == Root
    ensures var s2 := Step(Step(s, DoFinish), DoResume);
      && Inv(s2) && s2.cpu == Executing && s2.current == s.ready[0] != s.current
      && FrameOf(s2, s.current) == InFinish
  {
    var s1 := Step(s, DoFinish);
    StepInv(s, DoFinish);
    StepInv(s1, DoResume);
    assert ThreadOk(s, s.current) && ThreadOk(s, s.ready[0]);
    assert s1.current == s.ready[0] != s.current && FrameOf(s1, s.current) == InFinish;
    GoneStep(s1, DoResume, s.current);
  }

  /** Such a thread is leaked if the next one finishes in that first slice, in every continuation. */
  lemma PromptFinishLeaks(s: State, run: seq<Action>)
    requires Inv(s) && s.cpu == Executing && s.ready != [] && FrameOf(s, s.ready[0]) == Root
    ensures var s2 := Step(Step(s, DoFinish), DoResume);
      && s2.cpu == Executing
      && var s3 := Step(s2, DoFinish);
      && FrameOf(s3, s.current) == InFinish && s3.toBeDestroyed == Some(s.ready[0]) != Some(s.current)
      && (ValidRun(s3, run) ==> FrameOf(Final(s3, run), s.current) == InFinish)
  {
    PromptFinish(s);
    var s2 := Step(Step(s, DoFinish), DoResume);
    OverwrittenNow(s2, s.current);
    if ValidRun(Step(s2, DoFinish), run) {
      OverwrittenLeaks(Step(s2, DoFinish), run, s.current);
    }
  }

  /** Finish overwrites the pointer to a thread that finished before. */
  lemma OverwrittenNow(s: State, t: Tid)
    requires Inv(s) && s.cpu == Executing && FrameOf(s, t) == InFinish && t != s.current
    ensures var s' := Step(s, DoFinish);
      && Inv(s') && FrameOf(s', t) == InFinish && s'.toBeDestroyed == Some(s.current)
      && (s'.current == t ==> s'.cpu == Idling)
  {
    StepInv(s, DoFinish);
    GoneStep(s, DoFinish, t);
    PendingStep(s, DoFinish);
    assert ThreadOk(s, t) && ThreadOk(Step(s, DoFinish), t);
  }

  /** Thread 0 forks 1 and 2 and yields to 1. */
  lemma TwoForks() returns (run: seq<Action>)
    ensures ValidRun(Boot(0), run)
    ensures var s := Final(Boot(0), run);
      s.cpu == Executing && s.current == 1 && s.ready == [2, 0] && FrameOf(s, 2) == Root
  {
    var s1 := Step(Boot(0), Create(1));
    var s2 := Step(s1, Create(2));
    var s3 := Step(s2, DoFork(1));
    var s4 := Step(s3, DoFork(2));
    assert s4.ready == [1, 2];
    var s5 := Step(s4, DoYield);
    assert s5.ready == [2, 0];
    run := [];
    RunCons(s5, DoResume, run);
    run := [DoResume] + run;
    RunCons(s4, DoYield, run);
    run := [DoYield] + run;
    RunCons(s3, DoFork(2), run);
    run := [DoFork(2)] + run;
    RunCons(s2, DoFork(1), run);
    run := [DoFork(1)] + run;
    RunCons(s1, Create(2), run);
    run := [Create(2)] + run;
    RunCons(Boot(0), Create(1), run);
    run := [Create(1)] + run;
  }

  lemma ThreeSteps(s: State, a: Action, b: Action, c: Action)
    requires Enabled(s, a) && Enabled(Step(s, a), b) && Enabled(Step(Step(s, a), b), c)
    ensures ValidRun(s, [a, b, c]) && Final(s, [a, b, c]) == Step(Step(Step(s, a), b), c)
  {
    RunCons(Step(Step(s, a), b), c, []);
    RunCons(Step(s, a), b, [c]);
    RunCons(s, a, [b, c]);
    assert [a] + [b, c] == [a, b, c] && [b] + [c] == [b, c] && [c] + [] == [c];
  }

  /** The leak is reached: then 1 finishes, and 2 starts and finishes. Thread 1 is finished, nothing
      names it, and no continuation destroys it. */
  lemma LeakIsReachable() returns (run: seq<Action>)
    ensures ValidRun(Boot(0), run)
    ensures var s := Final(Boot(0), run);
      && FrameOf(s, 1) == InFinish && s.toBeDestroyed == Some(2)
      && forall rest :: ValidRun(s, rest) ==> FrameOf(Final(s, rest), 1) == InFinish
  {
    run := TwoForks();
    var s := Final(Boot(0), run);
    BootInv(0);
    RunInv(Boot(0), run);
    PromptFinishLeaks(s, []);
    ThreeSteps(s, DoFinish, DoResume, DoFinish);
    forall rest | ValidRun(Final(s, [DoFinish, DoResume, DoFinish]), rest)
      ensures FrameOf(Final(Final(s, [DoFinish, DoResume, DoFinish]), rest), 1) == InFinish
    {
      PromptFinishLeaks(s, rest);
    }
    RunConcat(Boot(0), run, [DoFinish, DoResume, DoFinish]);
    run := run + [DoFinish, DoResume, DoFinish];
  }
}
