/** Lock over whole runs: mutual exclusion, and its refinement of a binary semaphore. */
module LockProtocol {
  import opened Wrappers
  import opened KernelSpec
  import opened KernelInvariant
  import opened KernelEffects

  // ----- mutual exclusion -----

  /** The lock stores no owner. h is the set of threads between the return of their Acquire on o
      and their Release of o; this is how one step changes it. */
  function NextHolders(s: State, a: Action, h: set<Tid>, o: Oid): set<Tid>
    requires Enabled(s, a)
  {
    if a == Release(o) then h - {s.current}
    else if Returns(s, a, o) then h + {s.current}
    else h
  }

  function Holders(s: State, run: seq<Action>, h: set<Tid>, o: Oid): set<Tid>
    requires ValidRun(s, run)
    decreases run
  {
    if run == [] then h else Holders(Step(s, run[0]), run[1..], NextHolders(s, run[0], h, o), o)
  }

  /** The field tells the truth about the holders: BUSY for exactly one, FREE for none. */
  predicate Exclusive(s: State, h: set<Tid>, o: Oid) {
    && IsLock(s, o)
    && (s.syncs[o].held == 1 <==> |h| == 1)
    && (s.syncs[o].held == 0 <==> h == {})
  }

  /** A Release that the convention allows: by a holder. A Release of a lock nobody holds does no
      harm either. */
  predicate Allowed(s: State, a: Action, h: set<Tid>, o: Oid) {
    a == Release(o) ==> s.current in h || h == {}
  }

  /** One step keeps the lock exclusive if and only if it is not a Release by a stranger. */
  lemma StepExclusive(s: State, a: Action, h: set<Tid>, o: Oid)
    requires Inv(s) && Enabled(s, a) && Exclusive(s, h, o)
    ensures Exclusive(Step(s, a), NextHolders(s, a, h, o), o) <==> Allowed(s, a, h, o)
  {
    assert SyncOk(s, o);
    StepSync(s, a, o);
    ExclusiveAfter(s, a, h, o);
  }

  lemma ExclusiveAfter(s: State, a: Action, h: set<Tid>, o: Oid)
    requires Enabled(s, a) && Exclusive(s, h, o) && s.syncs[o].held in {0, 1} && SyncEffect(s, a, o)
    ensures Exclusive(Step(s, a), NextHolders(s, a, h, o), o) <==> Allowed(s, a, h, o)
  {
    HolderCount(h, s.current);
  }

  lemma HolderCount(h: set<Tid>, t: Tid)
    ensures t in h ==> |h - {t}| == |h| - 1
    ensures t !in h ==> h - {t} == h && |h + {t}| == |h| + 1
  {}

  ghost predicate AlwaysExclusive(s: State, run: seq<Action>, h: set<Tid>, o: Oid)
    requires ValidRun(s, run)
    decreases run
  {
    && Exclusive(s, h, o)
    && (run != [] ==> AlwaysExclusive(Step(s, run[0]), run[1..], NextHolders(s, run[0], h, o), o))
  }

  ghost predicate AlwaysAllowed(s: State, run: seq<Action>, h: set<Tid>, o: Oid)
    requires ValidRun(s, run)
    decreases run
  {
    run != [] ==>
      && Allowed(s, run[0], h, o)
      && AlwaysAllowed(Step(s, run[0]), run[1..], NextHolders(s, run[0], h, o), o)
  }

  /** Mutual exclusion, exactly: in every run from a free lock at most one thread holds it at any
      time and held says which is the case, if and only if no thread releases the lock while only
      others hold it. Without the convention of synch.h the lock does not exclude. */
  lemma {:induction false} MutualExclusion(s: State, run: seq<Action>, h: set<Tid>, o: Oid)
    requires Inv(s) && ValidRun(s, run) && Exclusive(s, h, o)
    ensures AlwaysExclusive(s, run, h, o) <==> AlwaysAllowed(s, run, h, o)
    ensures AlwaysAllowed(s, run, h, o) ==> Exclusive(Final(s, run), Holders(s, run, h, o), o)
    decreases run
  {
    if run != [] {
      StepInv(s, run[0]);
      StepExclusive(s, run[0], h, o);
      var s', h' := Step(s, run[0]), NextHolders(s, run[0], h, o);
      if Exclusive(s', h', o) {
        MutualExclusion(s', run[1..], h', o);
      } else {
        assert !AlwaysExclusive(s', run[1..], h', o);
      }
    }
  }

  /** A new lock is free and nobody holds it. */
  lemma NewLockIsFree(s: State, o: Oid)
    requires Enabled(s, NewLock(o))
    ensures Exclusive(Step(s, NewLock(o)), {}, o)
  {}

  /** Two different threads that both returned from Acquire on o and did not release it cannot be. */
  lemma AtMostOneHolder(s: State, run: seq<Action>, o: Oid, t: Tid, u: Tid)
    requires Inv(s) && Enabled(s, NewLock(o)) && ValidRun(Step(s, NewLock(o)), run)
    requires AlwaysAllowed(Step(s, NewLock(o)), run, {}, o)
    requires var h := Holders(Step(s, NewLock(o)), run, {}, o); t in h && u in h
    ensures t == u
    ensures var s' := Final(Step(s, NewLock(o)), run); IsLock(s', o) && s'.syncs[o].held == 1
  {
    var s1 := Step(s, NewLock(o));
    StepInv(s, NewLock(o));
    NewLockIsFree(s, o);
    MutualExclusion(s1, run, {}, o);
    RunInv(s1, run);
    var h := Holders(s1, run, {}, o);
    assert SyncOk(Final(s1, run), o);
    assert |h| == 1 && |h - {t}| == 0;
    assert h == {t} + (h - {t});
  }

  // ----- a run in which a stranger's Release breaks exclusion -----

  lemma HoldersCons(s: State, a: Action, run: seq<Action>, h: set<Tid>, o: Oid)
    requires Enabled(s, a) && ValidRun(Step(s, a), run)
    ensures ValidRun(s, [a] + run) && Final(s, [a] + run) == Final(Step(s, a), run)
    ensures Holders(s, [a] + run, h, o) == Holders(Step(s, a), run, NextHolders(s, a, h, o), o)
  {
    RunCons(s, a, run);
    assert ([a] + run)[1..] == run;
  }

  lemma {:induction false} HoldersConcat(s: State, a: seq<Action>, b: seq<Action>, h: set<Tid>, o: Oid)
    requires ValidRun(s, a) && ValidRun(Final(s, a), b)
    ensures ValidRun(s, a + b) && Final(s, a + b) == Final(Final(s, a), b)
    ensures Holders(s, a + b, h, o) == Holders(Final(s, a), b, Holders(s, a, h, o), o)
    decreases a
  {
    if a == [] {
      assert a + b == b;
    } else {
      HoldersConcat(Step(s, a[0]), a[1..], b, NextHolders(s, a[0], h, o), o);
      assert (a + b)[1..] == a[1..] + b;
      HoldersCons(s, a[0], a[1..] + b, h, o);
      assert a + b == [a[0]] + (a[1..] + b);
    }
  }

  /** Thread 0 holds lock 7 and has forked thread 1. */
  function ZeroHolds(): State {
    State(map[0 := Thread(Running, User), 1 := Thread(Ready, Root)],
          0, None, [1], IntOn, map[7 := Lk(1, [])], Executing)
  }

  /** Thread 0 still holds it; thread 1 runs. */
  function OneRuns(): State {
    State(map[0 := Thread(Ready, InYield(IntOn)), 1 := Thread(Running, User)],
          1, None, [0], IntOn, map[7 := Lk(1, [])], Executing)
  }

  function LockMade(): State {
    State(map[0 := Thread(Running, User), 1 := Thread(JustCreated, NotForked)],
          0, None, [], IntOn, map[7 := Lk(0, [])], Executing)
  }

  lemma LockMadeIsReachable()
    ensures var run := [Create(1), NewLock(7)];
      && ValidRun(Boot(0), run) && Final(Boot(0), run) == LockMade()
      && Holders(Boot(0), run, {}, 7) == {}
  {
    var s1 := Step(Boot(0), Create(1));
    assert Step(s1, NewLock(7)) == LockMade();
    HoldersCons(s1, NewLock(7), [], {}, 7);
    HoldersCons(Boot(0), Create(1), [NewLock(7)], {}, 7);
  }

  lemma ZeroHoldsNext()
    ensures var run := [Acquire(7), DoFork(1)];
      && ValidRun(LockMade(), run) && Final(LockMade(), run) == ZeroHolds()
      && Holders(LockMade(), run, {}, 7) == {0}
  {
    var s1 := Step(LockMade(), Acquire(7));
    assert s1 == LockMade().(syncs := map[7 := Lk(1, [])]);
    assert Step(s1, DoFork(1)) == ZeroHolds();
    HoldersCons(s1, DoFork(1), [], {0}, 7);
    HoldersCons(LockMade(), Acquire(7), [DoFork(1)], {}, 7);
  }

  lemma OneRunsNext()
    ensures var run := [DoYield, DoResume];
      && ValidRun(ZeroHolds(), run) && Final(ZeroHolds(), run) == OneRuns()
      && Holders(ZeroHolds(), run, {0}, 7) == {0}
  {
    var s1 := Step(ZeroHolds(), DoYield);
    assert s1.threads[1].frame == Root && s1.ready == [0];
    assert Step(s1, DoResume) == OneRuns();
    HoldersCons(s1, DoResume, [], {0}, 7);
    HoldersCons(ZeroHolds(), DoYield, [DoResume], {0}, 7);
  }

  lemma BothHoldNext()
    ensures var run := [Release(7), Acquire(7)];
      && ValidRun(OneRuns(), run) && Final(OneRuns(), run) == OneRuns()
      && Holders(OneRuns(), run, {0}, 7) == {0, 1}
  {
    var s1 := Step(OneRuns(), Release(7));
    assert s1 == OneRuns().(syncs := map[7 := Lk(0, [])]);
    assert Step(s1, Acquire(7)) == OneRuns();
    HoldersCons(s1, Acquire(7), [], {0}, 7);
    HoldersCons(OneRuns(), Release(7), [Acquire(7)], {0}, 7);
  }

  /** A run from the start after which two threads hold one lock: thread 1 releases the lock that
      thread 0 acquired, and acquires it itself. */
  lemma StrangerBreaksExclusion() returns (run: seq<Action>)
    ensures ValidRun(Boot(0), run) && Holders(Boot(0), run, {}, 7) == {0, 1}
    ensures var s := Final(Boot(0), run); IsLock(s, 7) && s.syncs[7].held == 1
  {
    LockMadeIsReachable();
    ZeroHoldsNext();
    OneRunsNext();
    BothHoldNext();
    HoldersConcat(ZeroHolds(), [DoYield, DoResume], [Release(7), Acquire(7)], {0}, 7);
    run := [DoYield, DoResume] + [Release(7), Acquire(7)];
    HoldersConcat(LockMade(), [Acquire(7), DoFork(1)], run, {}, 7);
    run := [Acquire(7), DoFork(1)] + run;
    HoldersConcat(Boot(0), [Create(1), NewLock(7)], run, {}, 7);
    run := [Create(1), NewLock(7)] + run;
  }

  // ----- refinement of a binary semaphore -----

  function AsSem(y: Sync): Sync {
    match y
    case Sem(v, q) => y
    case Lk(h, q) => Sem(1 - h, q)
  }

  /** The kernel in which every lock is a semaphore. */
  function Abs(s: State): State {
    s.(syncs := map o | o in s.syncs :: AsSem(s.syncs[o]))
  }

  function AbsAction(a: Action): Action {
    match a
    case NewLock(o) => NewSem(o, 1)
    case Acquire(o) => P(o)
    case Release(o) => V(o)
    case _ => a
  }

  function AbsRun(run: seq<Action>): (r: seq<Action>)
    ensures |r| == |run| && forall i :: 0 <= i < |r| ==> r[i] == AbsAction(run[i])
  {
    if run == [] then [] else [AbsAction(run[0])] + AbsRun(run[1..])
  }

  lemma AbsSleepTest(s: State)
    ensures Abs(SleepTest(s)) == SleepTest(Abs(s))
  {}

  lemma AbsEnqueue(s: State, o: Oid, saved: Level)
    requires o in s.syncs
    ensures Abs(Enqueue(s, o, saved)) == Enqueue(Abs(s), o, saved)
  {
    assert Abs(Enqueue(s, o, saved)).syncs == Enqueue(Abs(s), o, saved).syncs;
  }

  lemma AbsGrant(s: State, o: Oid, saved: Level)
    requires o in s.syncs && (s.syncs[o].Lk? ==> s.syncs[o].held == 0)
    ensures Abs(Grant(s, o, saved)) == Grant(Abs(s), o, saved)
  {
    assert Abs(Grant(s, o, saved)).syncs == Grant(Abs(s), o, saved).syncs;
  }

  lemma AbsSleep(s: State)
    ensures Abs(Sleep(s)) == Sleep(Abs(s))
  {
    AbsSleepTest(SetStatus(s, s.current, Blocked));
  }

  lemma AbsWaitLoop(s: State, o: Oid, saved: Level)
    requires Inv(s) && o in s.syncs
    ensures Abs(WaitLoop(s, o, saved)) == WaitLoop(Abs(s), o, saved)
  {
    assert SyncOk(s, o);
    if MustWait(s.syncs[o]) {
      AbsEnqueue(s, o, saved);
      AbsSleep(Enqueue(s, o, saved));
    } else {
      AbsGrant(s, o, saved);
    }
  }

  lemma AbsSignal(s: State, o: Oid)
    requires Inv(s) && o in s.syncs
    ensures Abs(Signal(s, o)) == Signal(Abs(s), o) <==> (s.syncs[o].Lk? ==> s.syncs[o].held == 1)
  {
    var l, r := Abs(Signal(s, o)), Signal(Abs(s), o);
    assert SyncOk(s, o);
    assert l.threads == r.threads && l.ready == r.ready;
    if s.syncs[o].Lk? && s.syncs[o].held != 1 {
      assert l.syncs[o] != r.syncs[o];
    } else {
      assert l.syncs == r.syncs;
    }
  }

  lemma AbsResume(s: State)
    requires Inv(s) && s.cpu == Switched
    ensures Abs(Resume(s)) == Resume(Abs(s))
  {
    DeleteCarcassInv(s);
    var s1 := DeleteCarcass(s);
    assert Abs(s1) == DeleteCarcass(Abs(s));
    var f := FrameOf(s, s.current);
    if f.InWait? {
      assert ThreadOk(s, s.current);
      AbsWaitLoop(s1, f.obj, f.saved);
    }
  }

  lemma AbsNew(s: State, a: Action)
    requires Enabled(s, a) && (a.NewSem? || a.NewLock?)
    ensures Enabled(Abs(s), AbsAction(a)) && Step(Abs(s), AbsAction(a)) == Abs(Step(s, a))
  {
    assert Step(Abs(s), AbsAction(a)).syncs == Abs(Step(s, a)).syncs;
  }

  /** Every step of the kernel with locks is the corresponding step of the kernel with semaphores,
      a Release exactly when it releases a lock that is held. */
  lemma StepRefines(s: State, a: Action)
    requires Inv(s) && Enabled(s, a)
    ensures Enabled(Abs(s), AbsAction(a))
    ensures (Step(Abs(s), AbsAction(a)) == Abs(Step(s, a))) <==> (a.Release? ==> s.syncs[a.o].held == 1)
  {
    match a
    case NewSem(o, v) => AbsNew(s, a);
    case NewLock(o) => AbsNew(s, a);
    case P(o) => AbsWait(s, o);
    case Acquire(o) => AbsWait(s, o);
    case V(o) => AbsSignal(s, o);
    case HandlerV(o) => AbsSignal(s, o);
    case Release(o) => AbsSignal(s, o);
    case DoResume => AbsResume(s);
    case _ =>
  }

  lemma AbsWait(s: State, o: Oid)
    requires Inv(s) && s.cpu == Executing && o in s.syncs
    ensures Abs(Wait(s, o)) == Wait(Abs(s), o)
  {
    AbsWaitLoop(s.(level := IntOff), o, s.level);
  }

  /** Do the two kernels stay in step through the whole run? */
  ghost predicate InStep(s: State, run: seq<Action>)
    requires ValidRun(s, run)
    decreases run
  {
    run != [] ==>
      && Enabled(Abs(s), AbsAction(run[0]))
      && Step(Abs(s), AbsAction(run[0])) == Abs(Step(s, run[0]))
      && InStep(Step(s, run[0]), run[1..])
  }

  ghost predicate ReleasesHeldLocks(s: State, run: seq<Action>)
    requires ValidRun(s, run)
    decreases run
  {
    run != [] ==>
      && (run[0].Release? ==> s.syncs[run[0].o].held == 1)
      && ReleasesHeldLocks(Step(s, run[0]), run[1..])
  }

  /** A lock is a semaphore initialised to 1, with value == 1 - held and the same queue, through any
      run, step by step, if and only if every Release of the run finds the lock held. */
  lemma {:induction false} LockRefinesSemaphore(s: State, run: seq<Action>)
    requires Inv(s) && ValidRun(s, run)
    ensures InStep(s, run) <==> ReleasesHeldLocks(s, run)
    ensures ReleasesHeldLocks(s, run) ==>
      ValidRun(Abs(s), AbsRun(run)) && Final(Abs(s), AbsRun(run)) == Abs(Final(s, run))
    decreases run
  {
    if run != [] {
      StepInv(s, run[0]);
      StepRefines(s, run[0]);
      LockRefinesSemaphore(Step(s, run[0]), run[1..]);
      assert AbsRun(run)[1..] == AbsRun(run[1..]);
    }
  }

  // ----- the convention of synch.h, for all locks at once -----

  function NextAll(s: State, a: Action, hs: Oid -> set<Tid>): Oid -> set<Tid>
    requires Enabled(s, a)
  {
    (o: Oid) => NextHolders(s, a, hs(o), o)
  }

  ghost predicate AllExclusive(s: State, hs: Oid -> set<Tid>) {
    && (forall o :: IsLock(s, o) ==> Exclusive(s, hs(o), o))
    && (forall o :: o !in s.syncs ==> hs(o) == {})
  }

  /** Only the thread that acquired a lock releases it. */
  ghost predicate Convention(s: State, run: seq<Action>, hs: Oid -> set<Tid>)
    requires ValidRun(s, run)
    decreases run
  {
    run != [] ==>
      && (run[0].Release? ==> s.current in hs(run[0].o))
      && Convention(Step(s, run[0]), run[1..], NextAll(s, run[0], hs))
  }

  lemma NotYetMade(s: State, a: Action, o: Oid)
    requires Inv(s) && Enabled(s, a) && o !in s.syncs
    ensures !Tests(s, a, o) && a != Release(o)
  {
    assert ThreadOk(s, s.current);
  }

  /** What the step does for one object. */
  lemma StepOneLock(s: State, a: Action, h: set<Tid>, o: Oid)
    requires Inv(s) && Enabled(s, a) && (a.Release? && a.o == o ==> s.current in h)
    requires IsLock(s, o) ==> Exclusive(s, h, o)
    requires o !in s.syncs ==> h == {}
    ensures IsLock(Step(s, a), o) ==> Exclusive(Step(s, a), NextHolders(s, a, h, o), o)
    ensures o !in Step(s, a).syncs ==> NextHolders(s, a, h, o) == {}
  {
    StepKind(s, a, o);
    if IsLock(s, o) {
      StepExclusive(s, a, h, o);
    } else if o !in s.syncs {
      NotYetMade(s, a, o);
    }
  }

  lemma StepAllExclusive(s: State, a: Action, hs: Oid -> set<Tid>)
    requires Inv(s) && Enabled(s, a) && AllExclusive(s, hs)
    requires a.Release? ==> s.current in hs(a.o)
    ensures AllExclusive(Step(s, a), NextAll(s, a, hs))
  {
    forall o
      ensures IsLock(Step(s, a), o) ==> Exclusive(Step(s, a), NextAll(s, a, hs)(o), o)
      ensures o !in Step(s, a).syncs ==> NextAll(s, a, hs)(o) == {}
    {
      StepOneLock(s, a, hs(o), o);
    }
  }

  lemma {:induction false} ConventionHolds(s: State, run: seq<Action>, hs: Oid -> set<Tid>)
    requires Inv(s) && ValidRun(s, run) && AllExclusive(s, hs) && Convention(s, run, hs)
    ensures ReleasesHeldLocks(s, run)
    decreases run
  {
    if run != [] {
      StepInv(s, run[0]);
      StepAllExclusive(s, run[0], hs);
      if run[0].Release? {
        assert Exclusive(s, hs(run[0].o), run[0].o) && SyncOk(s, run[0].o);
      }
      ConventionHolds(Step(s, run[0]), run[1..], NextAll(s, run[0], hs));
    }
  }

  /** A whole system that keeps the convention cannot tell its locks from binary semaphores. */
  lemma ConventionRefines(main: Tid, run: seq<Action>)
    requires ValidRun(Boot(main), run) && Convention(Boot(main), run, (o: Oid) => {})
    ensures ValidRun(Boot(main), AbsRun(run))
    ensures Final(Boot(main), AbsRun(run)) == Abs(Final(Boot(main), run))
  {
    BootInv(main);
    ConventionHolds(Boot(main), run, (o: Oid) => {});
    LockRefinesSemaphore(Boot(main), run);
    assert Abs(Boot(main)) == Boot(main);
  }
}
