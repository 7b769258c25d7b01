/** What exists and what may happen in a reachable state, told from the run that led there. */
module History {
  import opened KernelSpec
  import opened KernelInvariant
  import opened KernelEffects

  predicate SemMade(run: seq<Action>, o: Oid) {
    run != [] && (MakesSem(run[0], o) || SemMade(run[1..], o))
  }

  /** The threads of a state are those there were and those created since. */
  lemma {:induction false} ThreadsAre(s: State, run: seq<Action>, t: Tid)
    requires Inv(s) && ValidRun(s, run)
    ensures t in Final(s, run).threads <==> t in s.threads || Create(t) in run
    decreases run
  {
    if run != [] {
      StepInv(s, run[0]);
      StepExists(s, run[0]);
      ThreadsAre(Step(s, run[0]), run[1..], t);
      assert Create(t) in run <==> run[0] == Create(t) || Create(t) in run[1..];
    }
  }

  /** An address is taken once. */
  lemma {:induction false} CreatedOnce(s: State, run: seq<Action>, t: Tid)
    requires Inv(s) && ValidRun(s, run) && t in s.threads
    ensures Create(t) !in run
    decreases run
  {
    if run != [] {
      StepInv(s, run[0]);
      StepExists(s, run[0]);
      CreatedOnce(Step(s, run[0]), run[1..], t);
      assert Create(t) in run <==> run[0] == Create(t) || Create(t) in run[1..];
    }
  }

  predicate Forkable(s: State, t: Tid) {
    t in s.threads && s.threads[t].frame == NotForked
  }

  lemma StepForkable(s: State, a: Action, t: Tid)
    requires Inv(s) && Enabled(s, a)
    ensures Forkable(Step(s, a), t) <==> (Forkable(s, t) || a == Create(t)) && a != DoFork(t)
    ensures a == DoFork(t) ==> t in s.threads
  {
    StepExists(s, a);
    StepFrame(s, a, t);
    assert ThreadOk(s, s.current);
    if t in s.threads {
      assert ThreadOk(s, t);
    }
  }

  /** A thread can be forked from its creation on, whatever happens in between, until it is forked. */
  lemma {:induction false} ForkableUntilForked(s: State, run: seq<Action>, t: Tid)
    requires Inv(s) && ValidRun(s, run)
    ensures Forkable(Final(s, run), t) <==> (Forkable(s, t) || Create(t) in run) && DoFork(t) !in run
    decreases run
  {
    if run != [] {
      var a, rest := run[0], run[1..];
      StepInv(s, a);
      StepForkable(s, a, t);
      ForkableUntilForked(Step(s, a), rest, t);
      assert Create(t) in run <==> a == Create(t) || Create(t) in rest;
      assert DoFork(t) in run <==> a == DoFork(t) || DoFork(t) in rest;
      if a == DoFork(t) {
        CreatedOnce(s, run, t);
      }
    }
  }

  /** Semaphores and locks stay what they were made. */
  lemma {:induction false} SyncsAre(s: State, run: seq<Action>, o: Oid)
    requires Inv(s) && ValidRun(s, run)
    ensures IsSem(Final(s, run), o) <==> IsSem(s, o) || SemMade(run, o)
    ensures IsLock(Final(s, run), o) <==> IsLock(s, o) || NewLock(o) in run
    decreases run
  {
    if run != [] {
      StepInv(s, run[0]);
      StepKind(s, run[0], o);
      SyncsAre(Step(s, run[0]), run[1..], o);
      assert NewLock(o) in run <==> run[0] == NewLock(o) || NewLock(o) in run[1..];
    }
  }

  /** What the code demands of its callers, in terms of what happened before: create a thread once and
      fork it once, make an object once and with a non-negative value, and use only what was made. The
      rest depends on what the CPU does: anything may be called by a thread that runs its own code. */
  predicate MayHappen(main: Tid, run: seq<Action>, a: Action, cpu: Cpu, level: Level) {
    match a
    case Create(t) => cpu == Executing && t != main && Create(t) !in run
    case DoFork(t) => cpu == Executing && Create(t) in run && DoFork(t) !in run
    case NewSem(o, v) => cpu == Executing && v >= 0 && !SemMade(run, o) && NewLock(o) !in run
    case NewLock(o) => cpu == Executing && !SemMade(run, o) && NewLock(o) !in run
    case P(o) => cpu == Executing && SemMade(run, o)
    case V(o) => cpu == Executing && SemMade(run, o)
    case Acquire(o) => cpu == Executing && NewLock(o) in run
    case Release(o) => cpu == Executing && NewLock(o) in run
    case HandlerV(o) => SemMade(run, o) && (cpu == Idling || (cpu == Executing && level == IntOn))
    case IdleTest => cpu == Idling
    case DoResume => cpu == Switched
    case SetLevel(_) => cpu == Executing
    case DoYield => cpu == Executing
    case DoFinish => cpu == Executing
  }

  /** In every reachable state exactly these actions are possible. */
  lemma AllowedByHistory(main: Tid, run: seq<Action>, a: Action)
    requires ValidRun(Boot(main), run)
    ensures var s := Final(Boot(main), run);
      Enabled(s, a) <==> MayHappen(main, run, a, s.cpu, s.level)
  {
    BootInv(main);
    match a
    case Create(t) => ThreadsAre(Boot(main), run, t);
    case DoFork(t) => ForkableUntilForked(Boot(main), run, t);
    case NewSem(o, _) => SyncsAre(Boot(main), run, o);
    case NewLock(o) => SyncsAre(Boot(main), run, o);
    case P(o) => SyncsAre(Boot(main), run, o);
    case V(o) => SyncsAre(Boot(main), run, o);
    case Acquire(o) => SyncsAre(Boot(main), run, o);
    case Release(o) => SyncsAre(Boot(main), run, o);
    case HandlerV(o) => SyncsAre(Boot(main), run, o);
    case _ =>
  }
}
