/** The invariant that ties threads, lists, statuses and the CPU together. */
module KernelInvariant {
  import opened Wrappers
  import opened KernelSpec

  ghost predicate Distinct(q: seq<Tid>) {
    forall i, j :: 0 <= i < j < |q| ==> q[i] != q[j]
  }

  /** Has thread t just been switched to? */
  predicate IsSwitchedTo(s: State, t: Tid) {
    t == s.current && s.cpu == Switched
  }

  /** The frame of t determines its status and the list it is on. */
  ghost predicate ThreadOk(s: State, t: Tid)
    requires t in s.threads
  {
    var st := s.threads[t].status;
    match s.threads[t].frame
    case NotForked => st == JustCreated
    case Root => if IsSwitchedTo(s, t) then st == Running else st == Ready && t in s.ready
    case InYield(_) => if IsSwitchedTo(s, t) then st == Running else st == Ready && t in s.ready
    case User => t == s.current && s.cpu == Executing && st == Running
    case InWait(o, _) =>
      && o in s.syncs
      && if IsSwitchedTo(s, t) then st == Running && t !in s.syncs[o].queue
         else if t in s.syncs[o].queue then st == Blocked
         else st == Ready && t in s.ready
    case InFinish => st == Blocked
    case Freed => st == Blocked
  }

  ghost predicate ReadyOk(s: State) {
    && Distinct(s.ready)
    && forall t :: t in s.ready ==> t in s.threads && s.threads[t].status == Ready
  }

  ghost predicate SyncOk(s: State, o: Oid)
    requires o in s.syncs
  {
    && (s.syncs[o].Sem? ==> s.syncs[o].value >= 0)
    && (s.syncs[o].Lk? ==> s.syncs[o].held in {0, 1})
    && Distinct(s.syncs[o].queue)
    && forall t :: t in s.syncs[o].queue ==>
         && t in s.threads && s.threads[t].status == Blocked
         && s.threads[t].frame.InWait? && s.threads[t].frame.obj == o
  }

  ghost predicate CpuOk(s: State) {
    && s.current in s.threads
    && s.cpu != Crashed
    && (s.cpu == Executing ==> s.threads[s.current].frame == User)
    && (s.cpu == Switched ==> s.threads[s.current].status == Running && s.level == IntOff)
    && (s.cpu == Idling ==> s.level == IntOff)
    && (s.toBeDestroyed.Some? ==>
          s.toBeDestroyed.value in s.threads && s.threads[s.toBeDestroyed.value].frame == InFinish)
  }

  ghost predicate Inv(s: State) {
    && CpuOk(s)
    && ReadyOk(s)
    && (forall o :: o in s.syncs ==> SyncOk(s, o))
    && (forall t :: t in s.threads ==> ThreadOk(s, t))
  }

  // ----- the segments keep the invariant -----

  lemma BootInv(main: Tid)
    ensures Inv(Boot(main))
  {}

  lemma SleepTestInv(s: State)
    requires Inv(s) && s.cpu == Idling
    ensures Inv(SleepTest(s))
  {
    if s.ready != [] {
      var next, s' := s.ready[0], SleepTest(s);
      forall t | t in s'.threads ensures ThreadOk(s', t) {
        assert t in s.ready ==> t == next || t in s.ready[1..];
      }
    }
  }

  /** A current thread that leaves its code for the ready list. */
  function ToReady(s: State, saved: Level): State {
    ReadyToRun(SetFrame(s, s.current, InYield(saved)).(level := IntOff), s.current).(cpu := Idling)
  }

  lemma YieldSplits(s: State)
    requires Inv(s) && s.cpu == Executing && s.ready != []
    ensures Yield(s) == SleepTest(ToReady(s, s.level))
  {
    assert (s.ready + [s.current])[1..] == s.ready[1..] + [s.current];
  }

  lemma ToReadyInv(s: State, saved: Level)
    requires Inv(s) && s.cpu == Executing
    ensures Inv(ToReady(s, saved))
  {}

  /** A current thread that goes to sleep on the queue of o. */
  function ToQueue(s: State, o: Oid, saved: Level): State
    requires o in s.syncs
  {
    SetStatus(Enqueue(s, o, saved), s.current, Blocked).(cpu := Idling)
  }

  lemma ToQueueInv(s: State, o: Oid, saved: Level)
    requires Inv(s) && s.cpu in {Executing, Switched} && s.level == IntOff && o in s.syncs
    requires s.cpu == Switched ==> s.threads[s.current].frame == InWait(o, saved)
    ensures Inv(ToQueue(s, o, saved))
  {
    var s' := ToQueue(s, o, saved);
    assert ThreadOk(s, s.current);
    forall p | p in s'.syncs ensures SyncOk(s', p) {
      assert SyncOk(s, p);
    }
    forall t | t in s'.threads ensures ThreadOk(s', t) {
      assert ThreadOk(s, t);
    }
  }

  lemma GrantInv(s: State, o: Oid, saved: Level)
    requires Inv(s) && s.cpu in {Executing, Switched} && o in s.syncs && !MustWait(s.syncs[o])
    requires s.cpu == Switched ==> s.threads[s.current].frame == InWait(o, saved)
    ensures Inv(Grant(s, o, saved))
  {
    var s' := Grant(s, o, saved);
    assert ThreadOk(s, s.current);
    forall p | p in s'.syncs ensures SyncOk(s', p) {
      assert SyncOk(s, p);
    }
    forall t | t in s'.threads ensures ThreadOk(s', t) {
      assert ThreadOk(s, t);
    }
  }

  lemma WaitLoopInv(s: State, o: Oid, saved: Level)
    requires Inv(s) && s.cpu in {Executing, Switched} && s.level == IntOff && o in s.syncs
    requires s.cpu == Switched ==> s.threads[s.current].frame == InWait(o, saved)
    ensures MustWait(s.syncs[o]) ==> WaitLoop(s, o, saved) == SleepTest(ToQueue(s, o, saved))
    ensures Inv(WaitLoop(s, o, saved))
  {
    if MustWait(s.syncs[o]) {
      ToQueueInv(s, o, saved);
      SleepTestInv(ToQueue(s, o, saved));
    } else {
      GrantInv(s, o, saved);
    }
  }

  lemma WakeFirstInv(s: State, o: Oid)
    requires Inv(s) && s.cpu in {Executing, Idling} && o in s.syncs
    ensures Inv(WakeFirst(s, o)) && o in WakeFirst(s, o).syncs
  {
    var q := s.syncs[o].queue;
    if q != [] {
      var s', w := WakeFirst(s, o), q[0];
      assert SyncOk(s, o);
      assert w in q && w !in s.ready && w !in q[1..];
      forall p | p in s'.syncs ensures SyncOk(s', p) {
        assert SyncOk(s, p);
      }
      forall t | t in s'.threads ensures ThreadOk(s', t) {
        assert ThreadOk(s, t);
        assert t in q ==> t == w || t in q[1..];
      }
    }
  }

  lemma PutInv(s: State, o: Oid)
    requires Inv(s) && o in s.syncs
    ensures Inv(SetSync(s, o, Put(s.syncs[o])))
  {}

  lemma SignalInv(s: State, o: Oid)
    requires Inv(s) && s.cpu in {Executing, Idling} && o in s.syncs
    ensures Inv(Signal(s, o))
  {
    WakeFirstInv(s, o);
    PutInv(WakeFirst(s, o), o);
  }

  /** A current thread that called Finish, standing in Sleep. */
  function ToFinish(s: State): State {
    SetStatus(SetFrame(s, s.current, InFinish), s.current, Blocked).(
      level := IntOff, toBeDestroyed := Some(s.current), cpu := Idling)
  }

  lemma FinishInv(s: State)
    requires Inv(s) && s.cpu == Executing
    ensures Finish(s) == SleepTest(ToFinish(s))
    ensures Inv(ToFinish(s)) && Inv(Finish(s))
  {
    SleepTestInv(ToFinish(s));
  }

  lemma DeleteCarcassInv(s: State)
    requires Inv(s) && s.cpu == Switched
    ensures Inv(DeleteCarcass(s))
    ensures var s' := DeleteCarcass(s);
      && s' == s.(threads := s'.threads, toBeDestroyed := None)
      && s'.threads[s.current] == s.threads[s.current]
  {}

  /** A thread that starts, or returns from Yield. */
  lemma BackInv(s: State, l: Level)
    requires Inv(s) && s.cpu == Switched
    requires var f := s.threads[s.current].frame; f == Root || f.InYield?
    ensures Inv(SetFrame(s, s.current, User).(level := l, cpu := Executing))
  {
    assert ThreadOk(s, s.current);
  }

  lemma ResumeInv(s: State)
    requires Inv(s) && s.cpu == Switched
    ensures Inv(Resume(s))
  {
    var f, s1 := s.threads[s.current].frame, DeleteCarcass(s);
    DeleteCarcassInv(s);
    assert ThreadOk(s, s.current);
    match f
    case Root => BackInv(s, IntOn);
    case InYield(saved) => BackInv(s1, saved);
    case InWait(o, saved) => WaitLoopInv(s1, o, saved);
  }

  lemma YieldInv(s: State)
    requires Inv(s) && s.cpu == Executing
    ensures Inv(Yield(s))
  {
    if s.ready != [] {
      YieldSplits(s);
      ToReadyInv(s, s.level);
      SleepTestInv(ToReady(s, s.level));
    }
  }

  lemma ForkInv(s: State, t: Tid)
    requires Inv(s) && s.cpu == Executing && t in s.threads && s.threads[t].frame == NotForked
    ensures Inv(Fork(s, t))
  {}

  /** Creating a thread or an object, and setting the interrupt level. */
  lemma CreateInv(s: State, a: Action)
    requires Inv(s) && Enabled(s, a)
    requires a.Create? || a.NewSem? || a.NewLock? || a.SetLevel?
    ensures Inv(Step(s, a))
  {}

  lemma StepInv(s: State, a: Action)
    requires Inv(s) && Enabled(s, a)
    ensures Inv(Step(s, a))
  {
    match a
    case DoYield => YieldInv(s);
    case DoFork(t) => ForkInv(s, t);
    case P(o) => WaitLoopInv(s.(level := IntOff), o, s.level);
    case Acquire(o) => WaitLoopInv(s.(level := IntOff), o, s.level);
    case V(o) => SignalInv(s, o);
    case Release(o) => SignalInv(s, o);
    case HandlerV(o) => SignalInv(s, o);
    case DoFinish => FinishInv(s);
    case IdleTest => SleepTestInv(s);
    case DoResume => ResumeInv(s);
    case _ => CreateInv(s, a);
  }

  lemma {:induction false} RunInv(s: State, run: seq<Action>)
    requires Inv(s) && ValidRun(s, run)
    ensures Inv(Final(s, run))
    decreases run
  {
    if run != [] {
      StepInv(s, run[0]);
      RunInv(Step(s, run[0]), run[1..]);
    }
  }
}
