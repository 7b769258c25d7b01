/**
 The threads kernel as a state machine on values.

 One step is the code that runs between two points at which the CPU can pass to another
 thread: from a system call (or the end of SWITCH) to the next SWITCH, to the idle loop, or
 back to the thread's own code. The classes of KernelObjects.dfy run the same segments in
 place and are proved equal to the functions of this module.
 */
module KernelSpec {
  import opened Wrappers

  /** Addresses of Thread objects, and of Semaphore and Lock objects. */
  type Tid = nat
  type Oid = nat

  datatype Level = IntOff | IntOn
  datatype Status = JustCreated | Running | Ready | Blocked

  /** Where the code of a thread stands: what its stack holds while it does not run. */
  datatype Frame =
    | NotForked                        // constructed, no stack yet
    | Root                             // the forged frame of StackAllocate: ThreadRoot is next
    | User                             // in the thread's own code
    | InYield(saved: Level)            // suspended in Run, called from Yield
    | InWait(obj: Oid, saved: Level)   // in the while loop of P or Acquire, inside Sleep
    | InFinish                         // in Sleep, called from Finish
    | Freed                            // destroyed

  datatype Thread = Thread(status: Status, frame: Frame)

  datatype Sync =
    | Sem(value: int, queue: seq<Tid>)
    | Lk(held: int, queue: seq<Tid>)

  /** What the CPU does: the current thread's own code, the loop of Sleep that found nobody to
      run, the code right behind SWITCH, or nothing more (a failed ASSERT, a second delete, or a
      return into code marked as not reached). */
  datatype Cpu = Executing | Idling | Switched | Crashed

  datatype State = State(
    threads: map<Tid, Thread>,
    current: Tid,
    toBeDestroyed: Option<Tid>,
    ready: seq<Tid>,
    level: Level,
    syncs: map<Oid, Sync>,
    cpu: Cpu)

  function StatusOf(s: State, t: Tid): Status {
    if t in s.threads then s.threads[t].status else JustCreated
  }

  function FrameOf(s: State, t: Tid): Frame {
    if t in s.threads then s.threads[t].frame else NotForked
  }

  function QueueOf(s: State, o: Oid): seq<Tid> {
    if o in s.syncs then s.syncs[o].queue else []
  }

  function SetStatus(s: State, t: Tid, st: Status): State {
    s.(threads := s.threads[t := Thread(st, FrameOf(s, t))])
  }

  function SetFrame(s: State, t: Tid, f: Frame): State {
    s.(threads := s.threads[t := Thread(StatusOf(s, t), f)])
  }

  function SetSync(s: State, o: Oid, y: Sync): State {
    s.(syncs := s.syncs[o := y])
  }

  // ----- scheduler.cc -----

  function ReadyToRun(s: State, t: Tid): State {
    SetStatus(s, t, Ready).(ready := s.ready + [t])
  }

  /** Run up to and including SWITCH. */
  function Run(s: State, next: Tid): State {
    SetStatus(s, next, Running).(current := next, cpu := Switched)
  }

  /** The part of Run behind SWITCH, with the destructor's ASSERT. */
  function DeleteCarcass(s: State): State {
    match s.toBeDestroyed
    case None => s
    case Some(t) =>
      if t == s.current || FrameOf(s, t) == Freed then s.(cpu := Crashed)
      else SetFrame(s, t, Freed).(toBeDestroyed := None)
  }

  // ----- thread.cc -----

  /** The test of the loop in Sleep, and the dispatch behind the loop. */
  function SleepTest(s: State): State {
    if s.ready == [] then s.(cpu := Idling)
    else Run(s.(ready := s.ready[1..]), s.ready[0])
  }

  function Sleep(s: State): State {
    if s.level != IntOff then s.(cpu := Crashed)
    else SleepTest(SetStatus(s, s.current, Blocked))
  }

  function Fork(s: State, t: Tid): State {
    ReadyToRun(SetFrame(s, t, Root), t)
  }

  function Yield(s: State): State {
    if s.ready == [] then s
    else
      var s1 := SetFrame(s, s.current, InYield(s.level)).(level := IntOff, ready := s.ready[1..]);
      Run(ReadyToRun(s1, s.current), s.ready[0])
  }

  function Finish(s: State): State {
    Sleep(SetFrame(s, s.current, InFinish).(level := IntOff, toBeDestroyed := Some(s.current)))
  }

  // ----- synch.cc -----

  /** How many waits the object can grant now: the semaphore's value, or 1 for a free lock. */
  function Avail(y: Sync): int {
    match y
    case Sem(v, _) => v
    case Lk(h, _) => 1 - h
  }

  /** The condition of the while loops of P and Acquire. */
  predicate MustWait(y: Sync) {
    match y
    case Sem(v, _) => v == 0
    case Lk(h, _) => h != 0
  }

  function Take(y: Sync): Sync {
    match y
    case Sem(v, q) => Sem(v - 1, q)
    case Lk(h, q) => Lk(1, q)
  }

  function Put(y: Sync): Sync {
    match y
    case Sem(v, q) => Sem(v + 1, q)
    case Lk(h, q) => Lk(0, q)
  }

  function SetQueue(y: Sync, q: seq<Tid>): Sync {
    y.(queue := q)
  }

  /** The current thread joins the queue of o and stands in Sleep. */
  function Enqueue(s: State, o: Oid, saved: Level): State
    requires o in s.syncs
  {
    SetSync(SetFrame(s, s.current, InWait(o, saved)), o, SetQueue(s.syncs[o], s.syncs[o].queue + [s.current]))
  }

  /** The current thread leaves the loop, takes the object and returns. */
  function Grant(s: State, o: Oid, saved: Level): State
    requires o in s.syncs
  {
    SetFrame(SetSync(s, o, Take(s.syncs[o])).(level := saved), s.current, User).(cpu := Executing)
  }

  /** One test of the loop of P or Acquire and what follows it. */
  function WaitLoop(s: State, o: Oid, saved: Level): State
    requires o in s.syncs
  {
    if MustWait(s.syncs[o]) then Sleep(Enqueue(s, o, saved)) else Grant(s, o, saved)
  }

  function Wait(s: State, o: Oid): State
    requires o in s.syncs
  {
    WaitLoop(s.(level := IntOff), o, s.level)
  }

  function WakeFirst(s: State, o: Oid): State
    requires o in s.syncs
  {
    var q := s.syncs[o].queue;
    if q == [] then s
    else ReadyToRun(SetSync(s, o, SetQueue(s.syncs[o], q[1..])), q[0])
  }

  /** V and Release. */
  function Signal(s: State, o: Oid): State
    requires o in s.syncs
  {
    var s1 := WakeFirst(s, o);
    SetSync(s1, o, Put(s1.syncs[o]))
  }

  /** V and Release do not look at the interrupt level. */
  lemma SignalAtAnyLevel(s: State, o: Oid, l: Level)
    requires o in s.syncs
    ensures Signal(s.(level := l), o).(level := s.level) == Signal(s, o)
  {}

  // ----- the code behind SWITCH -----

  /** What stands behind the call of Run, or of Sleep, in the function that made it. */
  function Continue(s: State, f: Frame): State {
    match f
    case InYield(saved) => SetFrame(s, s.current, User).(level := saved, cpu := Executing)
    case InWait(o, saved) => if o in s.syncs then WaitLoop(s, o, saved) else s.(cpu := Crashed)
    case _ => s.(cpu := Crashed)
  }

  /** The first thing a thread does after it was switched to: InterruptEnable in ThreadRoot for
      a forged frame, otherwise the rest of Run and the code that called Run or Sleep. */
  function Resume(s: State): State {
    var f := FrameOf(s, s.current);
    if f == Root then SetFrame(s, s.current, User).(level := IntOn, cpu := Executing)
    else
      var s1 := DeleteCarcass(s);
      if s1.cpu == Crashed then s1 else Continue(s1, f)
  }

  // ----- steps and runs -----

  datatype Action =
    | Create(t: Tid)               // new Thread
    | NewSem(o: Oid, value: int)   // new Semaphore
    | NewLock(o: Oid)              // new Lock
    | DoFork(t: Tid)
    | SetLevel(level: Level)       // the current thread changes the interrupt level itself
    | DoYield                      // a call of Yield, or one forced by the timer
    | P(o: Oid) | V(o: Oid)
    | Acquire(o: Oid) | Release(o: Oid)
    | DoFinish
    | HandlerV(o: Oid)             // V from an interrupt handler
    | IdleTest                     // Idle returns and the loop of Sleep tests again
    | DoResume

  predicate IsSem(s: State, o: Oid) { o in s.syncs && s.syncs[o].Sem? }
  predicate IsLock(s: State, o: Oid) { o in s.syncs && s.syncs[o].Lk? }

  /** What the code asks of its callers: Fork once per thread, a non-negative initial value,
      live objects. Nothing is asked of the thread that calls Release. */
  predicate Enabled(s: State, a: Action) {
    match a
    case Create(t) => s.cpu == Executing && t !in s.threads
    case NewSem(o, v) => s.cpu == Executing && o !in s.syncs && v >= 0
    case NewLock(o) => s.cpu == Executing && o !in s.syncs
    case DoFork(t) => s.cpu == Executing && t in s.threads && FrameOf(s, t) == NotForked
    case SetLevel(_) => s.cpu == Executing
    case DoYield => s.cpu == Executing
    case P(o) => s.cpu == Executing && IsSem(s, o)
    case V(o) => s.cpu == Executing && IsSem(s, o)
    case Acquire(o) => s.cpu == Executing && IsLock(s, o)
    case Release(o) => s.cpu == Executing && IsLock(s, o)
    case DoFinish => s.cpu == Executing
    case HandlerV(o) => IsSem(s, o) && ((s.cpu == Executing && s.level == IntOn) || s.cpu == Idling)
    case IdleTest => s.cpu == Idling
    case DoResume => s.cpu == Switched
  }

  function Step(s: State, a: Action): State
    requires Enabled(s, a)
  {
    match a
    case Create(t) => s.(threads := s.threads[t := Thread(JustCreated, NotForked)])
    case NewSem(o, v) => s.(syncs := s.syncs[o := Sem(v, [])])
    case NewLock(o) => s.(syncs := s.syncs[o := Lk(0, [])])
    case DoFork(t) => Fork(s, t)
    case SetLevel(l) => s.(level := l)
    case DoYield => Yield(s)
    case P(o) => Wait(s, o)
    case V(o) => Signal(s, o)
    case Acquire(o) => Wait(s, o)
    case Release(o) => Signal(s, o)
    case DoFinish => Finish(s)
    case HandlerV(o) => Signal(s, o)
    case IdleTest => SleepTest(s)
    case DoResume => Resume(s)
  }

  predicate ValidRun(s: State, run: seq<Action>)
    decreases run
  {
    run == [] || (Enabled(s, run[0]) && ValidRun(Step(s, run[0]), run[1..]))
  }

  function Final(s: State, run: seq<Action>): State
    requires ValidRun(s, run)
    decreases run
  {
    if run == [] then s else Final(Step(s, run[0]), run[1..])
  }

  lemma RunCons(s: State, a: Action, run: seq<Action>)
    requires Enabled(s, a) && ValidRun(Step(s, a), run)
    ensures ValidRun(s, [a] + run) && Final(s, [a] + run) == Final(Step(s, a), run)
  {
    assert ([a] + run)[1..] == run;
  }

  lemma {:induction false} RunConcat(s: State, a: seq<Action>, b: seq<Action>)
    requires ValidRun(s, a) && ValidRun(Final(s, a), b)
    ensures ValidRun(s, a + b) && Final(s, a + b) == Final(Final(s, a), b)
    decreases a
  {
    if a == [] {
      assert a + b == b;
    } else {
      RunConcat(Step(s, a[0]), a[1..], b);
      assert (a + b)[1..] == a[1..] + b;
    }
  }

  /** The state Initialize leaves: the main thread runs, interrupts are on. */
  function Boot(main: Tid): State {
    State(map[main := Thread(Running, User)], main, None, [], IntOn, map[], Executing)
  }
}
