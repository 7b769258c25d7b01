/** What one step does to each thread's frame and to each semaphore and lock. */
module KernelEffects {
  import opened Wrappers
  import opened KernelSpec
  import opened KernelInvariant

  /** Is this a test of the loop of P or Acquire on o, in a new call or by a woken thread? */
  predicate Tests(s: State, a: Action, o: Oid) {
    || a == P(o) || a == Acquire(o)
    || (a == DoResume && FrameOf(s, s.current).InWait? && FrameOf(s, s.current).obj == o)
  }

  /** Does this step let a P or Acquire on o return? */
  predicate Returns(s: State, a: Action, o: Oid)
    requires Enabled(s, a)
  {
    Tests(s, a, o) && Step(s, a).cpu == Executing
  }

  predicate Signals(a: Action, o: Oid) {
    a == V(o) || a == Release(o) || a == HandlerV(o)
  }

  function Tail(q: seq<Tid>): seq<Tid> {
    if q == [] then [] else q[1..]
  }

  /** The object after a step: a test takes it or queues the current thread, a signal drops the first
      waiter and puts one grant back. */
  function SyncAfter(s: State, a: Action, o: Oid): Sync
    requires o in s.syncs
  {
    match s.syncs[o]
    case Sem(v, q) =>
      if Tests(s, a, o) then if v == 0 then Sem(0, q + [s.current]) else Sem(v - 1, q)
      else if Signals(a, o) then Sem(v + 1, Tail(q))
      else Sem(v, q)
    case Lk(h, q) =>
      if Tests(s, a, o) then if h != 0 then Lk(h, q + [s.current]) else Lk(1, q)
      else if Signals(a, o) then Lk(0, Tail(q))
      else Lk(h, q)
  }

  /** The frame of the current thread after a test that was made at level saved. */
  function TestFrame(s: State, o: Oid, saved: Level): Frame {
    if o in s.syncs && MustWait(s.syncs[o]) then InWait(o, saved) else User
  }

  /** The frame of t after a step: the current thread moves on in its own code, and the destructor
      may reach a finished thread; nobody else's stack changes. */
  function FrameAfter(s: State, a: Action, t: Tid): Frame {
    var f := FrameOf(s, t);
    match a
    case DoFork(u) => if t == u then Root else f
    case DoYield => if t == s.current && s.ready != [] then InYield(s.level) else f
    case P(o) => if t == s.current then TestFrame(s, o, s.level) else f
    case Acquire(o) => if t == s.current then TestFrame(s, o, s.level) else f
    case DoFinish => if t == s.current then InFinish else f
    case DoResume =>
      if t == s.current then if f.InWait? then TestFrame(s, f.obj, f.saved) else User
      else if FrameOf(s, s.current) != Root && s.toBeDestroyed == Some(t) then Freed
      else f
    case _ => f
  }

  lemma SleepTestFrame(s: State, t: Tid)
    ensures FrameOf(SleepTest(s), t) == FrameOf(s, t)
  {}

  lemma SleepFrame(s: State, t: Tid)
    ensures FrameOf(Sleep(s), t) == FrameOf(s, t)
  {
    SleepTestFrame(SetStatus(s, s.current, Blocked), t);
  }

  /** One test of the loop, made with interrupts off. */
  lemma TestEffect(s: State, o: Oid, saved: Level, t: Tid, p: Oid)
    requires o in s.syncs && s.level == IntOff
    ensures var s' := WaitLoop(s, o, saved);
      && FrameOf(s', t) == (if t == s.current then TestFrame(s, o, saved) else FrameOf(s, t))
      && (p in s.syncs <==> p in s'.syncs)
      && (p in s.syncs && p != o ==> s'.syncs[p] == s.syncs[p])
      && s'.syncs[o] == (if MustWait(s.syncs[o]) then SetQueue(s.syncs[o], s.syncs[o].queue + [s.current])
                         else Take(s.syncs[o]))
      && (s'.cpu == Executing <==> !MustWait(s.syncs[o]))
      && (!MustWait(s.syncs[o]) ==> s'.level == saved && s'.current == s.current && s'.ready == s.ready)
  {
    if MustWait(s.syncs[o]) {
      SleepFrame(Enqueue(s, o, saved), t);
    }
  }

  lemma YieldFrame(s: State, t: Tid)
    ensures FrameOf(Yield(s), t) == if t == s.current && s.ready != [] then InYield(s.level) else FrameOf(s, t)
  {}

  lemma FinishFrame(s: State, t: Tid)
    ensures FrameOf(Finish(s), t) == if t == s.current then InFinish else FrameOf(s, t)
  {
    SleepFrame(SetFrame(s, s.current, InFinish).(level := IntOff, toBeDestroyed := Some(s.current)), t);
  }

  lemma SignalFrame(s: State, o: Oid, t: Tid)
    requires o in s.syncs
    ensures FrameOf(Signal(s, o), t) == FrameOf(s, t)
  {}

  lemma ResumeFrame(s: State, t: Tid)
    requires Inv(s) && s.cpu == Switched
    ensures FrameOf(Resume(s), t) == FrameAfter(s, DoResume, t)
  {
    assert ThreadOk(s, s.current);
    DeleteCarcassInv(s);
    var f := FrameOf(s, s.current);
    if f.InWait? {
      TestEffect(DeleteCarcass(s), f.obj, f.saved, t, f.obj);
    }
  }

  lemma StepFrame(s: State, a: Action, t: Tid)
    requires Inv(s) && Enabled(s, a)
    ensures FrameOf(Step(s, a), t) == FrameAfter(s, a, t)
  {
    match a
    case DoResume => ResumeFrame(s, t);
    case DoYield => YieldFrame(s, t);
    case DoFinish => FinishFrame(s, t);
    case IdleTest => SleepTestFrame(s, t);
    case P(o) => TestEffect(s.(level := IntOff), o, s.level, t, o);
    case Acquire(o) => TestEffect(s.(level := IntOff), o, s.level, t, o);
    case V(o) => SignalFrame(s, o, t);
    case Release(o) => SignalFrame(s, o, t);
    case HandlerV(o) => SignalFrame(s, o, t);
    case _ =>
  }

  /** A step and one object; the test lets its caller go on exactly when it takes the object. */
  ghost predicate SyncEffect(s: State, a: Action, o: Oid)
    requires Enabled(s, a) && o in s.syncs
  {
    && o in Step(s, a).syncs && Step(s, a).syncs[o] == SyncAfter(s, a, o)
    && (Tests(s, a, o) ==> (Step(s, a).cpu == Executing <==> !MustWait(s.syncs[o])))
  }

  lemma ResumeSync(s: State, o: Oid)
    requires Inv(s) && s.cpu == Switched && o in s.syncs
    ensures SyncEffect(s, DoResume, o)
  {
    assert ThreadOk(s, s.current);
    DeleteCarcassInv(s);
    var f := FrameOf(s, s.current);
    if f.InWait? {
      TestEffect(DeleteCarcass(s), f.obj, f.saved, s.current, o);
    }
  }

  lemma CallSync(s: State, a: Action, o: Oid)
    requires Enabled(s, a) && o in s.syncs && (a.P? || a.Acquire?)
    ensures SyncEffect(s, a, o)
  {
    TestEffect(s.(level := IntOff), a.o, s.level, s.current, o);
  }

  lemma SignalSync(s: State, a: Action, o: Oid)
    requires Enabled(s, a) && o in s.syncs && (a.V? || a.Release? || a.HandlerV?)
    ensures SyncEffect(s, a, o)
  {}

  lemma StepSync(s: State, a: Action, o: Oid)
    requires Inv(s) && Enabled(s, a) && o in s.syncs
    ensures SyncEffect(s, a, o)
  {
    match a
    case DoResume => ResumeSync(s, o);
    case P(_) => CallSync(s, a, o);
    case Acquire(_) => CallSync(s, a, o);
    case V(_) => SignalSync(s, a, o);
    case Release(_) => SignalSync(s, a, o);
    case HandlerV(_) => SignalSync(s, a, o);
    case _ =>
  }

  // ----- who runs and who is ready -----

  /** The thread a step puts on the ready list, if any. */
  function MadeReady(s: State, a: Action): seq<Tid> {
    match a
    case DoFork(t) => [t]
    case DoYield => if s.ready == [] then [] else [s.current]
    case V(o) => First(QueueOf(s, o))
    case Release(o) => First(QueueOf(s, o))
    case HandlerV(o) => First(QueueOf(s, o))
    case _ => []
  }

  function First(q: seq<Tid>): seq<Tid> {
    if q == [] then [] else [q[0]]
  }

  /** Does the current thread give up the CPU, or is it looking for somebody to give it to? */
  predicate LeavesCpu(s: State, a: Action) {
    match a
    case DoFinish => true
    case IdleTest => true
    case DoYield => s.ready != []
    case P(o) => o in s.syncs && MustWait(s.syncs[o])
    case Acquire(o) => o in s.syncs && MustWait(s.syncs[o])
    case DoResume =>
      var f := FrameOf(s, s.current);
      f.InWait? && f.obj in s.syncs && MustWait(s.syncs[f.obj])
    case _ => false
  }

  /** The CPU and the ready list after a step. A thread that gives up the CPU hands it to the first
      ready thread, whoever that is; the CPU idles only when nobody is ready. */
  predicate Scheduled(s: State, a: Action, s': State) {
    var q := s.ready + MadeReady(s, a);
    if !LeavesCpu(s, a) then
      && s'.current == s.current && s'.ready == q
      && s'.cpu == if a == DoResume then Executing else s.cpu
    else if q == [] then s'.current == s.current && s'.ready == [] && s'.cpu == Idling
    else s'.current == q[0] && s'.ready == q[1..] && s'.cpu == Switched
  }

  lemma TestScheduled(s: State, o: Oid, saved: Level)
    requires o in s.syncs && s.level == IntOff
    ensures var s' := WaitLoop(s, o, saved);
      if !MustWait(s.syncs[o]) then s'.current == s.current && s'.ready == s.ready && s'.cpu == Executing
      else if s.ready == [] then s'.current == s.current && s'.ready == [] && s'.cpu == Idling
      else s'.current == s.ready[0] && s'.ready == s.ready[1..] && s'.cpu == Switched
  {}

  lemma ResumeScheduled(s: State)
    requires Inv(s) && s.cpu == Switched
    ensures Scheduled(s, DoResume, Resume(s))
  {
    assert ThreadOk(s, s.current);
    DeleteCarcassInv(s);
    var f := FrameOf(s, s.current);
    if f.InWait? {
      TestScheduled(DeleteCarcass(s), f.obj, f.saved);
    }
  }

  lemma YieldScheduled(s: State)
    requires s.cpu == Executing
    ensures Scheduled(s, DoYield, Yield(s))
  {
    if s.ready != [] {
      assert (s.ready + [s.current])[1..] == s.ready[1..] + [s.current];
    }
  }

  lemma SignalScheduled(s: State, a: Action)
    requires Enabled(s, a) && (a.V? || a.Release? || a.HandlerV?)
    ensures Scheduled(s, a, Step(s, a))
  {}

  lemma StepScheduled(s: State, a: Action)
    requires Inv(s) && Enabled(s, a)
    ensures Scheduled(s, a, Step(s, a))
  {
    match a
    case DoResume => ResumeScheduled(s);
    case DoYield => YieldScheduled(s);
    case P(o) => TestScheduled(s.(level := IntOff), o, s.level);
    case Acquire(o) => TestScheduled(s.(level := IntOff), o, s.level);
    case V(_) => SignalScheduled(s, a);
    case Release(_) => SignalScheduled(s, a);
    case HandlerV(_) => SignalScheduled(s, a);
    case _ =>
  }

  // ----- what there is -----

  /** A thread exists from its creation on, a semaphore or lock too; a new one is as its constructor
      leaves it. */
  ghost predicate Exists(s: State, a: Action, s': State) {
    && s'.threads.Keys == s.threads.Keys + (if a.Create? then {a.t} else {})
    && s'.syncs.Keys == s.syncs.Keys + (if a.NewSem? || a.NewLock? then {a.o} else {})
    && (a.NewSem? ==> s'.syncs[a.o] == Sem(a.value, []))
    && (a.NewLock? ==> s'.syncs[a.o] == Lk(0, []))
  }

  /** No thread, semaphore or lock comes or goes. */
  ghost predicate SameObjects(s: State, s': State) {
    s'.threads.Keys == s.threads.Keys && s'.syncs.Keys == s.syncs.Keys
  }

  lemma TestExists(s: State, o: Oid, saved: Level)
    requires CpuOk(s) && ReadyOk(s) && o in s.syncs
    ensures SameObjects(s, WaitLoop(s, o, saved))
  {}

  lemma SignalExists(s: State, o: Oid)
    requires o in s.syncs && SyncOk(s, o)
    ensures SameObjects(s, Signal(s, o))
  {}

  lemma ResumeExists(s: State)
    requires Inv(s) && s.cpu == Switched
    ensures SameObjects(s, Resume(s))
  {
    assert ThreadOk(s, s.current);
    DeleteCarcassInv(s);
    var f := FrameOf(s, s.current);
    if f.InWait? {
      TestExists(DeleteCarcass(s), f.obj, f.saved);
    }
  }

  lemma StepExists(s: State, a: Action)
    requires Inv(s) && Enabled(s, a)
    ensures Exists(s, a, Step(s, a))
  {
    match a
    case DoResume => ResumeExists(s);
    case P(o) => TestExists(s.(level := IntOff), o, s.level);
    case Acquire(o) => TestExists(s.(level := IntOff), o, s.level);
    case V(o) => SignalExists(s, o);
    case Release(o) => SignalExists(s, o);
    case HandlerV(o) => SignalExists(s, o);
    case _ =>
  }

  predicate MakesSem(a: Action, o: Oid) { a.NewSem? && a.o == o }

  /** Semaphores and locks stay what they were made. */
  lemma StepKind(s: State, a: Action, o: Oid)
    requires Inv(s) && Enabled(s, a)
    ensures IsSem(Step(s, a), o) <==> IsSem(s, o) || MakesSem(a, o)
    ensures IsLock(Step(s, a), o) <==> IsLock(s, o) || a == NewLock(o)
  {
    StepExists(s, a);
    if o in s.syncs {
      StepSync(s, a, o);
    }
  }
}
