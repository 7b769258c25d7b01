/** Wake-ups of semaphores and locks over whole runs: none is lost, an idle machine is stuck. */
module WakeUp {
  import opened Wrappers
  import opened KernelSpec
  import opened KernelInvariant
  import opened KernelEffects

  /** The threads that were taken off the queue of o and have not tested the loop again. */
  ghost function Woken(s: State, o: Oid): set<Tid> {
    set t | t in s.threads && s.threads[t].frame.InWait? && s.threads[t].frame.obj == o && t !in QueueOf(s, o)
  }

  /** Whoever waits on o waits for a reason: o grants no more waits than woken threads will take. */
  ghost predicate NoLostWakeUp(s: State, o: Oid) {
    QueueOf(s, o) != [] ==> Avail(s.syncs[o]) <= |Woken(s, o)|
  }

  ghost predicate AllWakeUps(s: State) {
    forall o :: o in s.syncs ==> NoLostWakeUp(s, o)
  }

  /** A test of the loop takes the current thread out of the woken ones, a signal adds the first
      waiter. */
  lemma StepWoken(s: State, a: Action, o: Oid)
    requires Inv(s) && Enabled(s, a) && o in s.syncs
    ensures Woken(Step(s, a), o) ==
      if Tests(s, a, o) then Woken(s, o) - {s.current}
      else if Signals(a, o) && QueueOf(s, o) != [] then Woken(s, o) + {QueueOf(s, o)[0]}
      else Woken(s, o)
  {
    StepSync(s, a, o);
    var q := QueueOf(s, o);
    forall t ensures t in Woken(Step(s, a), o) <==>
      if Tests(s, a, o) then t in Woken(s, o) && t != s.current
      else t in Woken(s, o) || (Signals(a, o) && q != [] && t == q[0])
    {
      OneWoken(s, a, o, t);
    }
  }

  lemma OneWoken(s: State, a: Action, o: Oid, t: Tid)
    requires Inv(s) && Enabled(s, a) && o in s.syncs && SyncEffect(s, a, o)
    ensures var q := QueueOf(s, o); t in Woken(Step(s, a), o) <==>
      if Tests(s, a, o) then t in Woken(s, o) && t != s.current
      else t in Woken(s, o) || (Signals(a, o) && q != [] && t == q[0])
  {
    StepFrame(s, a, t);
    WokenFrame(s, o, t);
    WokenFrame(Step(s, a), o, t);
    assert SyncOk(s, o) && ThreadOk(s, s.current);
    var q := QueueOf(s, o);
    assert q != [] ==> q[0] in q && (t in q <==> t == q[0] || t in q[1..]);
  }

  lemma WokenFrame(s: State, o: Oid, t: Tid)
    ensures t in Woken(s, o) <==> FrameOf(s, t).InWait? && FrameOf(s, t).obj == o && t !in QueueOf(s, o)
  {}

  lemma StepNoLost(s: State, a: Action, o: Oid)
    requires Inv(s) && Enabled(s, a) && o in s.syncs && NoLostWakeUp(s, o)
    ensures o in Step(s, a).syncs && NoLostWakeUp(Step(s, a), o)
  {
    StepSync(s, a, o);
    StepWoken(s, a, o);
    assert SyncOk(s, o) && ThreadOk(s, s.current);
    if Signals(a, o) && QueueOf(s, o) != [] {
      assert QueueOf(s, o)[0] in QueueOf(s, o) && QueueOf(s, o)[0] !in Woken(s, o);
    }
  }

  lemma StepWakes(s: State, a: Action)
    requires Inv(s) && Enabled(s, a) && AllWakeUps(s)
    ensures AllWakeUps(Step(s, a))
  {
    forall o | o in Step(s, a).syncs ensures NoLostWakeUp(Step(s, a), o) {
      if o in s.syncs {
        StepNoLost(s, a, o);
      } else {
        StepExists(s, a);
      }
    }
  }

  lemma {:induction false} RunWakes(s: State, run: seq<Action>)
    requires Inv(s) && AllWakeUps(s) && ValidRun(s, run)
    ensures AllWakeUps(Final(s, run))
    decreases run
  {
    if run != [] {
      StepInv(s, run[0]);
      StepWakes(s, run[0]);
      RunWakes(Step(s, run[0]), run[1..]);
    }
  }

  /** No wake-up is lost, for semaphores and for locks: with a waiter in the queue, the value (or
      the one grant of a free lock) is covered by woken threads, each of which is on the ready
      list or is the thread just switched to. */
  lemma NoWakeUpIsLost(main: Tid, run: seq<Action>, o: Oid)
    requires ValidRun(Boot(main), run)
    requires var s := Final(Boot(main), run); o in s.syncs && s.syncs[o].queue != []
    ensures var s := Final(Boot(main), run);
      && (s.syncs[o].Sem? ==> s.syncs[o].value <= |Woken(s, o)|)
      && (s.syncs[o].Lk? && s.syncs[o].held == 0 ==> Woken(s, o) != {})
      && forall t :: t in Woken(s, o) ==> t in s.ready || (t == s.current && s.cpu == Switched)
  {
    BootInv(main);
    RunInv(Boot(main), run);
    RunWakes(Boot(main), run);
    var s := Final(Boot(main), run);
    assert NoLostWakeUp(s, o);
    forall t | t in Woken(s, o) ensures t in s.ready || (t == s.current && s.cpu == Switched) {
      assert ThreadOk(s, t);
    }
  }

  /** A thread that can go on only if somebody else signals an object that grants nothing. */
  ghost predicate StuckOn(s: State, t: Tid, o: Oid) {
    o in s.syncs && t in s.syncs[o].queue && MustWait(s.syncs[o])
  }

  /** When Sleep finds the ready list empty the machine is really stuck: every object with waiters
      grants nothing, and every thread is not forked, finished, or waits for such an object. */
  lemma IdleIsStuck(main: Tid, run: seq<Action>)
    requires ValidRun(Boot(main), run)
    requires var s := Final(Boot(main), run); s.cpu == Idling && s.ready == []
    ensures var s := Final(Boot(main), run);
      && (forall o :: o in s.syncs && s.syncs[o].queue != [] ==>
            match s.syncs[o] case Sem(v, _) => v == 0 case Lk(h, _) => h == 1)
      && (forall t :: t in s.threads ==>
            || s.threads[t].frame in {NotForked, InFinish, Freed}
            || exists o :: StuckOn(s, t, o))
  {
    BootInv(main);
    RunInv(Boot(main), run);
    RunWakes(Boot(main), run);
    var s := Final(Boot(main), run);
    forall o | o in s.syncs && s.syncs[o].queue != []
      ensures match s.syncs[o] case Sem(v, _) => v == 0 case Lk(h, _) => h == 1
    {
      assert SyncOk(s, o) && NoLostWakeUp(s, o);
      forall t ensures t !in Woken(s, o) {
        assert t in s.threads ==> ThreadOk(s, t);
      }
      assert Woken(s, o) == {};
    }
    forall t | t in s.threads && s.threads[t].frame !in {NotForked, InFinish, Freed}
      ensures exists o :: StuckOn(s, t, o)
    {
      assert ThreadOk(s, t);
      var o := s.threads[t].frame.obj;
      assert SyncOk(s, o);
      assert StuckOn(s, t, o);
    }
  }

  /** V from an interrupt handler ends the wait of the thread that has waited longest on that
      semaphore, even when that thread is the one in Sleep: the loop of Sleep dispatches it, and it
      returns from its P. Without a waiter the machine goes on idling. */
  lemma HandlerUnsticks(s: State, o: Oid)
    requires Inv(s) && s.cpu == Idling && s.ready == [] && IsSem(s, o)
    ensures ValidRun(s, [HandlerV(o), IdleTest])
    ensures var s' := Final(s, [HandlerV(o), IdleTest]);
      if QueueOf(s, o) == [] then s' == SetSync(s, o, Sem(s.syncs[o].value + 1, []))
      else
        && s'.cpu == Switched && s'.current == QueueOf(s, o)[0] && s'.ready == []
        && Enabled(s', DoResume) && Returns(s', DoResume, o)
        && Step(s', DoResume).current == s'.current
        && IsSem(Step(s', DoResume), o) && Step(s', DoResume).syncs[o].value == s.syncs[o].value
  {
    var s1 := Step(s, HandlerV(o));
    RunCons(s1, IdleTest, []);
    RunCons(s, HandlerV(o), [IdleTest]);
    StepInv(s, HandlerV(o));
    StepInv(s1, IdleTest);
    assert SyncOk(s, o);
    if QueueOf(s, o) == [] {
      assert s1 == SetSync(s, o, Sem(s.syncs[o].value + 1, []));
    } else {
      WokenByHandler(s, o);
    }
  }

  lemma WokenByHandler(s: State, o: Oid)
    requires Inv(s) && s.cpu == Idling && s.ready == [] && IsSem(s, o) && QueueOf(s, o) != []
    ensures var s' := Step(Step(s, HandlerV(o)), IdleTest);
      && s'.cpu == Switched && s'.current == QueueOf(s, o)[0] && s'.ready == []
      && Returns(s', DoResume, o) && Step(s', DoResume).current == s'.current
      && IsSem(Step(s', DoResume), o) && Step(s', DoResume).syncs[o].value == s.syncs[o].value
  {
    var w := QueueOf(s, o)[0];
    var s1 := Step(s, HandlerV(o));
    var s2 := Step(s1, IdleTest);
    assert SyncOk(s, o) && w in QueueOf(s, o);
    StepInv(s, HandlerV(o));
    StepInv(s1, IdleTest);
    StepScheduled(s, HandlerV(o));
    StepScheduled(s1, IdleTest);
    StepSync(s, HandlerV(o), o);
    StepSync(s1, IdleTest, o);
    StepFrame(s, HandlerV(o), w);
    StepFrame(s1, IdleTest, w);
    StepScheduled(s2, DoResume);
    StepSync(s2, DoResume, o);
  }

  predicate WakesSomebody(s: State, a: Action) {
    a.HandlerV? && QueueOf(s, a.o) != []
  }

  predicate WakesNobody(s: State, run: seq<Action>)
    requires ValidRun(s, run)
    decreases run
  {
    run != [] ==> !WakesSomebody(s, run[0]) && WakesNobody(Step(s, run[0]), run[1..])
  }

  /** Nothing runs: the CPU idles, nobody is ready, and threads and current thread are these. */
  predicate StuckAs(s: State, threads: map<Tid, Thread>, current: Tid) {
    s.cpu == Idling && s.ready == [] && s.threads == threads && s.current == current
  }

  ghost predicate AlwaysStuck(s: State, run: seq<Action>, threads: map<Tid, Thread>, current: Tid)
    requires ValidRun(s, run)
    decreases run
  {
    && StuckAs(s, threads, current)
    && (run != [] ==> AlwaysStuck(Step(s, run[0]), run[1..], threads, current))
  }

  /** V from a handler on a semaphore with waiters is the only way out of a stuck machine: through a
      run the machine stays as it is, if and only if the run has no such V. */
  lemma {:induction false} OnlyHandlersUnstick(s: State, run: seq<Action>)
    requires ValidRun(s, run) && s.cpu == Idling && s.ready == []
    ensures AlwaysStuck(s, run, s.threads, s.current) <==> WakesNobody(s, run)
    decreases run
  {
    if run != [] {
      var s' := Step(s, run[0]);
      if WakesSomebody(s, run[0]) {
        assert s'.ready == [QueueOf(s, run[0].o)[0]];
        assert !AlwaysStuck(s', run[1..], s.threads, s.current);
      } else {
        assert StuckAs(s', s.threads, s.current);
        OnlyHandlersUnstick(s', run[1..]);
      }
    }
  }

  /** V wakes a waiter but does not hand it the semaphore: any thread that runs before the woken one
      may take the value with a P that returns at once. */
  lemma VDoesNotHandOff(s: State, o: Oid)
    requires Inv(s) && s.cpu == Executing && IsSem(s, o)
    requires s.syncs[o].value == 0 && s.syncs[o].queue != []
    ensures Enabled(Step(s, V(o)), P(o))
    ensures var s' := Step(Step(s, V(o)), P(o));
      && s'.cpu == Executing && s'.current == s.current
      && IsSem(s', o) && s'.syncs[o].value == 0
      && s.syncs[o].queue[0] in Woken(s', o) && s.syncs[o].queue[0] in s'.ready
  {
    var w := s.syncs[o].queue[0];
    var s1 := Step(s, V(o));
    assert SyncOk(s, o) && w in s.syncs[o].queue && ThreadOk(s, s.current);
    assert w != s.current;
    StepWoken(s, V(o), o);
    assert s1.syncs[o] == Sem(1, s.syncs[o].queue[1..]) && w in Woken(s1, o);
    var s' := Step(s1, P(o));
    assert s'.syncs[o] == Sem(0, s.syncs[o].queue[1..]);
    assert FrameOf(s', w) == FrameOf(s1, w);
  }

  /** The woken thread that comes too late waits again, at the end of the queue. */
  lemma TooLateWaitsAgain(s: State, o: Oid)
    requires Inv(s) && s.cpu == Switched && s.current in Woken(s, o) && MustWait(s.syncs[o])
    ensures QueueOf(Resume(s), o) == QueueOf(s, o) + [s.current]
  {
    assert ThreadOk(s, s.current);
    StepSync(s, DoResume, o);
  }

  // ----- conservation -----

  function CountReturns(s: State, run: seq<Action>, o: Oid): nat
    requires ValidRun(s, run)
    decreases run
  {
    if run == [] then 0
    else (if Returns(s, run[0], o) then 1 else 0) + CountReturns(Step(s, run[0]), run[1..], o)
  }

  function CountVs(run: seq<Action>, o: Oid): nat {
    if run == [] then 0
    else (if run[0] == V(o) || run[0] == HandlerV(o) then 1 else 0) + CountVs(run[1..], o)
  }

  /** How one step changes the value of a semaphore. */
  ghost predicate ValueChanges(s: State, a: Action, o: Oid)
    requires Enabled(s, a) && IsSem(s, o)
  {
    var s' := Step(s, a);
    && IsSem(s', o)
    && s'.syncs[o].value == s.syncs[o].value
         + (if a == V(o) || a == HandlerV(o) then 1 else 0)
         - (if Returns(s, a, o) then 1 else 0)
  }

  /** Only V on o and the return of a P on o change the value of semaphore o. */
  lemma StepValue(s: State, a: Action, o: Oid)
    requires Inv(s) && Enabled(s, a) && IsSem(s, o)
    ensures ValueChanges(s, a, o)
  {
    StepSync(s, a, o);
  }

  /** In every run the value is what it was, plus the Vs, minus the Ps that returned; it is never
      negative. A run may start right after the semaphore was made. */
  lemma {:induction false} SemaphoreConservation(s: State, run: seq<Action>, o: Oid)
    requires Inv(s) && IsSem(s, o) && ValidRun(s, run)
    ensures IsSem(Final(s, run), o)
    ensures Final(s, run).syncs[o].value == s.syncs[o].value + CountVs(run, o) - CountReturns(s, run, o)
    ensures Final(s, run).syncs[o].value >= 0
    decreases run
  {
    if run == [] {
      assert SyncOk(s, o);
    } else {
      StepInv(s, run[0]);
      StepValue(s, run[0], o);
      SemaphoreConservation(Step(s, run[0]), run[1..], o);
    }
  }

  /** The same from the creation of the semaphore: its constructor sets the initial value. */
  lemma ConservationFromCreation(s: State, o: Oid, initialValue: int, run: seq<Action>)
    requires Inv(s) && Enabled(s, NewSem(o, initialValue)) && ValidRun(Step(s, NewSem(o, initialValue)), run)
    ensures var s1 := Step(s, NewSem(o, initialValue));
      && IsSem(Final(s1, run), o)
      && Final(s1, run).syncs[o].value == initialValue + CountVs(run, o) - CountReturns(s1, run, o)
  {
    StepInv(s, NewSem(o, initialValue));
    SemaphoreConservation(Step(s, NewSem(o, initialValue)), run, o);
  }

  // ----- who gets the value of a V -----

  /** Thread w is not switched back to in this run. */
  predicate NotResumed(s: State, run: seq<Action>, w: Tid)
    requires ValidRun(s, run)
    decreases run
  {
    run != [] ==>
      && !(run[0] == DoResume && s.current == w)
      && NotResumed(Step(s, run[0]), run[1..], w)
  }

  lemma {:induction false} StaysWoken(s: State, run: seq<Action>, o: Oid, w: Tid)
    requires Inv(s) && ValidRun(s, run) && o in s.syncs && w in Woken(s, o) && NotResumed(s, run, w)
    ensures o in Final(s, run).syncs && w in Woken(Final(s, run), o)
    decreases run
  {
    if run != [] {
      StepInv(s, run[0]);
      StepSync(s, run[0], o);
      StepWoken(s, run[0], o);
      assert ThreadOk(s, s.current);
      StaysWoken(Step(s, run[0]), run[1..], o, w);
    }
  }

  /** A woken thread gets the semaphore exactly when the values and Vs outnumber the Ps that returned
      between the V that woke it and its turn. Nothing else counts: not who called V, nor the order in
      which the others came. */
  lemma WokenGetsValue(s: State, run: seq<Action>, o: Oid, w: Tid)
    requires Inv(s) && ValidRun(s, run) && IsSem(s, o) && w in Woken(s, o) && NotResumed(s, run, w)
    requires Final(s, run).cpu == Switched && Final(s, run).current == w
    ensures Returns(Final(s, run), DoResume, o) <==> s.syncs[o].value + CountVs(run, o) > CountReturns(s, run, o)
  {
    StaysWoken(s, run, o, w);
    SemaphoreConservation(s, run, o);
    RunInv(s, run);
    WokenFrame(Final(s, run), o, w);
    StepSync(Final(s, run), DoResume, o);
  }

  /** Has an Acquire returned since the last Release? taken says how it was before the run. */
  predicate TakenSince(s: State, run: seq<Action>, o: Oid, taken: bool)
    requires ValidRun(s, run)
    decreases run
  {
    if run == [] then taken
    else TakenSince(Step(s, run[0]), run[1..], o, run[0] != Release(o) && (taken || Returns(s, run[0], o)))
  }

  lemma {:induction false} LockIsTaken(s: State, run: seq<Action>, o: Oid)
    requires Inv(s) && ValidRun(s, run) && IsLock(s, o)
    ensures IsLock(Final(s, run), o)
    ensures MustWait(Final(s, run).syncs[o]) <==> TakenSince(s, run, o, MustWait(s.syncs[o]))
    decreases run
  {
    if run != [] {
      StepInv(s, run[0]);
      StepSync(s, run[0], o);
      LockIsTaken(Step(s, run[0]), run[1..], o);
    }
  }

  /** A woken thread gets the lock exactly when nobody acquired it since the last Release. */
  lemma WokenGetsLock(s: State, run: seq<Action>, o: Oid, w: Tid)
    requires Inv(s) && ValidRun(s, run) && IsLock(s, o) && w in Woken(s, o) && NotResumed(s, run, w)
    requires Final(s, run).cpu == Switched && Final(s, run).current == w
    ensures Returns(Final(s, run), DoResume, o) <==> !TakenSince(s, run, o, s.syncs[o].held != 0)
  {
    StaysWoken(s, run, o, w);
    LockIsTaken(s, run, o);
    RunInv(s, run);
    WokenFrame(Final(s, run), o, w);
    StepSync(Final(s, run), DoResume, o);
  }

  // ----- a run in which a newcomer takes the value -----

  /** Thread 1 waits on semaphore 7, thread 0 runs. */
  function OneWaits(): State {
    State(map[0 := Thread(Running, User), 1 := Thread(Blocked, InWait(7, IntOn))],
          0, None, [], IntOn, map[7 := Sem(0, [1])], Executing)
  }

  /** Thread 0 has made thread 1 and the semaphore; thread 1 is ready. */
  function OneReady(): State {
    State(map[0 := Thread(Running, User), 1 := Thread(Ready, Root)],
          0, None, [1], IntOn, map[7 := Sem(0, [])], Executing)
  }

  /** Thread 0 has yielded to thread 1. */
  function OneRuns(): State {
    State(map[0 := Thread(Ready, InYield(IntOn)), 1 := Thread(Running, User)],
          1, None, [0], IntOn, map[7 := Sem(0, [])], Executing)
  }

  lemma OneReadyIsReachable()
    ensures ValidRun(Boot(0), [Create(1), NewSem(7, 0), DoFork(1)])
    ensures Final(Boot(0), [Create(1), NewSem(7, 0), DoFork(1)]) == OneReady()
  {
    var s1 := Step(Boot(0), Create(1));
    var s2 := Step(s1, NewSem(7, 0));
    assert Step(s2, DoFork(1)) == OneReady();
    RunCons(s2, DoFork(1), []);
    RunCons(s1, NewSem(7, 0), [DoFork(1)]);
    RunCons(Boot(0), Create(1), [NewSem(7, 0), DoFork(1)]);
  }

  lemma OneRunsIsReachable()
    ensures ValidRun(OneReady(), [DoYield, DoResume]) && Final(OneReady(), [DoYield, DoResume]) == OneRuns()
  {
    var s1 := Step(OneReady(), DoYield);
    assert s1.threads[1].frame == Root && s1.ready == [0];
    assert Step(s1, DoResume) == OneRuns();
    RunCons(s1, DoResume, []);
    RunCons(OneReady(), DoYield, [DoResume]);
  }

  lemma OneWaitsNext()
    ensures ValidRun(OneRuns(), [P(7), DoResume]) && Final(OneRuns(), [P(7), DoResume]) == OneWaits()
  {
    var s1 := Step(OneRuns(), P(7));
    assert [0][1..] == [] && [] + [1] == [1];
    assert s1 == State(map[0 := Thread(Running, InYield(IntOn)), 1 := Thread(Blocked, InWait(7, IntOn))],
                       0, None, [], IntOff, map[7 := Sem(0, [1])], Switched);
    assert Step(s1, DoResume) == OneWaits();
    RunCons(s1, DoResume, []);
    RunCons(OneRuns(), P(7), [DoResume]);
  }

  lemma OneWaitsIsReachable() returns (run: seq<Action>)
    ensures ValidRun(Boot(0), run) && Final(Boot(0), run) == OneWaits()
  {
    OneReadyIsReachable();
    OneRunsIsReachable();
    OneWaitsNext();
    RunConcat(OneReady(), [DoYield, DoResume], [P(7), DoResume]);
    run := [DoYield, DoResume] + [P(7), DoResume];
    RunConcat(Boot(0), [Create(1), NewSem(7, 0), DoFork(1)], run);
    run := [Create(1), NewSem(7, 0), DoFork(1)] + run;
  }

  /** Thread 0 has called V, which woke thread 1, and then P, which returned. */
  function ValueTaken(): State {
    State(map[0 := Thread(Running, User), 1 := Thread(Ready, InWait(7, IntOn))],
          0, None, [1], IntOn, map[7 := Sem(0, [])], Executing)
  }

  lemma ValueIsTaken()
    ensures ValidRun(OneWaits(), [V(7), P(7)]) && Final(OneWaits(), [V(7), P(7)]) == ValueTaken()
  {
    var s1 := Step(OneWaits(), V(7));
    assert [1][1..] == [] && [] + [1] == [1];
    assert s1.threads == ValueTaken().threads && s1.syncs == map[7 := Sem(1, [])];
    assert Step(s1, P(7)) == ValueTaken();
    RunCons(s1, P(7), []);
    RunCons(OneWaits(), V(7), [P(7)]);
  }

  /** A run from the start in which V wakes thread 1, and thread 0, which called V, takes the value
      with a P before 1 gets the CPU; 1 does not return from its P. */
  lemma NewcomerTakesValue() returns (run: seq<Action>)
    ensures ValidRun(Boot(0), run)
    ensures var s := Final(Boot(0), run);
      && s.cpu == Switched && s.current == 1 && 1 in Woken(s, 7)
      && Enabled(s, DoResume) && !Returns(s, DoResume, 7)
  {
    run := OneWaitsIsReachable();
    ValueIsTaken();
    RunConcat(Boot(0), run, [V(7), P(7)]);
    run := run + [V(7), P(7)];
    RunCons(ValueTaken(), DoYield, []);
    RunConcat(Boot(0), run, [DoYield]);
    run := run + [DoYield];
    var s := Final(Boot(0), run);
    assert s == Step(ValueTaken(), DoYield);
    BootInv(0);
    RunInv(Boot(0), run);
    TakenMustWait(s);
  }

  lemma TakenMustWait(s: State)
    requires Inv(s) && s == Step(ValueTaken(), DoYield)
    ensures s.cpu == Switched && s.current == 1 && 1 in Woken(s, 7)
    ensures !Returns(s, DoResume, 7)
  {
    WokenFrame(s, 7, 1);
    StepSync(s, DoResume, 7);
  }
}
