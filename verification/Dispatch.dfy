/** The order in which threads get the CPU and leave the wait queues. */
module Dispatch {
  import opened KernelSpec
  import opened KernelInvariant
  import opened KernelEffects

  /** The thread a step gives the CPU to, if it switches. */
  function Dispatched(s: State, a: Action): seq<Tid>
    requires Enabled(s, a)
  {
    if Step(s, a).cpu == Switched then [Step(s, a).current] else []
  }

  function ReadyLog(s: State, run: seq<Action>): seq<Tid>
    requires ValidRun(s, run)
    decreases run
  {
    if run == [] then [] else MadeReady(s, run[0]) + ReadyLog(Step(s, run[0]), run[1..])
  }

  function DispatchLog(s: State, run: seq<Action>): seq<Tid>
    requires ValidRun(s, run)
    decreases run
  {
    if run == [] then [] else Dispatched(s, run[0]) + DispatchLog(Step(s, run[0]), run[1..])
  }

  lemma StepFifo(s: State, a: Action)
    requires Inv(s) && Enabled(s, a)
    ensures s.ready + MadeReady(s, a) == Dispatched(s, a) + Step(s, a).ready
  {
    StepScheduled(s, a);
    var q := s.ready + MadeReady(s, a);
    assert q != [] ==> q == [q[0]] + q[1..];
  }

  /** Two pieces of a queue's history make one. */
  lemma Glue<T>(q0: seq<T>, in0: seq<T>, out0: seq<T>, q1: seq<T>, in1: seq<T>, out1: seq<T>, q2: seq<T>)
    requires q0 + in0 == out0 + q1 && q1 + in1 == out1 + q2
    ensures q0 + (in0 + in1) == (out0 + out1) + q2
  {
    assert q0 + (in0 + in1) == (q0 + in0) + in1;
    assert out0 + (q1 + in1) == (out0 + q1) + in1;
    assert out0 + (out1 + q2) == (out0 + out1) + q2;
  }

  /** The law of the ready list over any run: who was on it, followed by who was made ready, is who
      was dispatched, followed by who is on it now. */
  lemma {:induction false} ReadyListIsFifo(s: State, run: seq<Action>)
    requires Inv(s) && ValidRun(s, run)
    ensures s.ready + ReadyLog(s, run) == DispatchLog(s, run) + Final(s, run).ready
    decreases run
  {
    if run != [] {
      var s' := Step(s, run[0]);
      StepInv(s, run[0]);
      StepFifo(s, run[0]);
      ReadyListIsFifo(s', run[1..]);
      Glue(s.ready, MadeReady(s, run[0]), Dispatched(s, run[0]), s'.ready,
           ReadyLog(s', run[1..]), DispatchLog(s', run[1..]), Final(s, run).ready);
    }
  }

  /** The k-th of q0 is the k-th that was served, or has moved up by as many as were served. */
  predicate ServedInOrder<T(==)>(q0: seq<T>, served: seq<T>, q1: seq<T>, k: nat)
    requires k < |q0|
  {
    if k < |served| then served[k] == q0[k]
    else k - |served| < |q1| && q1[k - |served|] == q0[k]
  }

  lemma FifoIndex<T>(q0: seq<T>, ins: seq<T>, outs: seq<T>, q1: seq<T>, k: nat)
    requires q0 + ins == outs + q1 && k < |q0|
    ensures ServedInOrder(q0, outs, q1, k)
  {
    assert (q0 + ins)[k] == (outs + q1)[k];
  }

  /** The thread at index k of the ready list gets the CPU at exactly the (k+1)-th dispatch of any
      run, and until then it moves up one place at each dispatch. */
  lemma DispatchBound(s: State, run: seq<Action>, k: nat)
    requires Inv(s) && ValidRun(s, run) && k < |s.ready|
    ensures ServedInOrder(s.ready, DispatchLog(s, run), Final(s, run).ready, k)
  {
    ReadyListIsFifo(s, run);
    FifoIndex(s.ready, ReadyLog(s, run), DispatchLog(s, run), Final(s, run).ready, k);
  }

  // ----- the idle loop -----

  /** The threads that handlers woke since the idle loop tested the ready list last. */
  function WokenSinceTest(s: State, run: seq<Action>, woken: seq<Tid>): seq<Tid>
    requires ValidRun(s, run)
    decreases run
  {
    if run == [] then woken
    else WokenSinceTest(Step(s, run[0]), run[1..],
                        if run[0].HandlerV? then woken + First(QueueOf(s, run[0].o)) else [])
  }

  lemma {:induction false} IdleFrom(s: State, run: seq<Action>, woken: seq<Tid>)
    requires Inv(s) && ValidRun(s, run) && (s.cpu == Idling ==> s.ready == woken)
    ensures Final(s, run).cpu == Idling ==> Final(s, run).ready == WokenSinceTest(s, run, woken)
    decreases run
  {
    if run != [] {
      StepInv(s, run[0]);
      StepScheduled(s, run[0]);
      IdleFrom(Step(s, run[0]), run[1..],
               if run[0].HandlerV? then woken + First(QueueOf(s, run[0].o)) else []);
    }
  }

  /** The kernel never idles on a thread it could run: in every reachable state in which the CPU
      idles, the ready threads are exactly those that handlers woke since the last test of the loop;
      and if there are any, the next test gives the CPU to the first of them. */
  lemma IdlesOnlyWithoutWork(main: Tid, run: seq<Action>)
    requires ValidRun(Boot(main), run) && Final(Boot(main), run).cpu == Idling
    ensures var s := Final(Boot(main), run);
      && s.ready == WokenSinceTest(Boot(main), run, [])
      && Enabled(s, IdleTest)
      && var s' := Step(s, IdleTest);
         if s.ready == [] then s' == s
         else s'.cpu == Switched && s'.current == s.ready[0] && s'.ready == s.ready[1..]
  {
    BootInv(main);
    RunInv(Boot(main), run);
    IdleFrom(Boot(main), run, []);
    StepScheduled(Final(Boot(main), run), IdleTest);
  }

  // ----- the wait queues -----

  /** The thread a step puts on the queue of o: it tests the loop of P or Acquire, in a new call or
      after it was woken, and finds the object taken. */
  function Queued(s: State, a: Action, o: Oid): seq<Tid> {
    if o in s.syncs && Tests(s, a, o) && MustWait(s.syncs[o]) then [s.current] else []
  }

  /** The thread a step takes off the queue of o. */
  function Unqueued(s: State, a: Action, o: Oid): seq<Tid> {
    if Signals(a, o) then First(QueueOf(s, o)) else []
  }

  lemma StepQueue(s: State, a: Action, o: Oid)
    requires Inv(s) && Enabled(s, a) && o in s.syncs
    ensures o in Step(s, a).syncs
    ensures QueueOf(s, o) + Queued(s, a, o) == Unqueued(s, a, o) + QueueOf(Step(s, a), o)
  {
    StepSync(s, a, o);
  }

  function QueuedLog(s: State, run: seq<Action>, o: Oid): seq<Tid>
    requires ValidRun(s, run)
    decreases run
  {
    if run == [] then [] else Queued(s, run[0], o) + QueuedLog(Step(s, run[0]), run[1..], o)
  }

  function UnqueuedLog(s: State, run: seq<Action>, o: Oid): seq<Tid>
    requires ValidRun(s, run)
    decreases run
  {
    if run == [] then [] else Unqueued(s, run[0], o) + UnqueuedLog(Step(s, run[0]), run[1..], o)
  }

  /** The same law for the queue of every semaphore and lock: V and Release wake the longest waiter.
      A woken thread that finds the object taken queues again at the end. */
  lemma {:induction false} WaitQueueIsFifo(s: State, run: seq<Action>, o: Oid)
    requires Inv(s) && ValidRun(s, run) && o in s.syncs
    ensures QueueOf(s, o) + QueuedLog(s, run, o) == UnqueuedLog(s, run, o) + QueueOf(Final(s, run), o)
    decreases run
  {
    if run != [] {
      var s' := Step(s, run[0]);
      StepInv(s, run[0]);
      StepQueue(s, run[0], o);
      WaitQueueIsFifo(s', run[1..], o);
      Glue(QueueOf(s, o), Queued(s, run[0], o), Unqueued(s, run[0], o), QueueOf(s', o),
           QueuedLog(s', run[1..], o), UnqueuedLog(s', run[1..], o), QueueOf(Final(s, run), o));
    }
  }

  // ----- rounds of Yield -----

  function Order(s: State): seq<Tid> {
    [s.current] + s.ready
  }

  /** One Yield and the first thing the next thread does. */
  function Round(s: State): State
    requires s.cpu == Executing
  {
    var s1 := Step(s, DoYield);
    if s1.cpu == Switched then Step(s1, DoResume) else s1
  }

  /** Would t come back to its own code? A woken thread does so if nobody took its object. */
  predicate GoesOn(s: State, t: Tid) {
    FrameOf(s, t).InWait? ==>
      var o := FrameOf(s, t).obj;
      o in s.syncs && !MustWait(s.syncs[o])
  }

  predicate ComesBack(s: State) {
    s.ready != [] ==> GoesOn(s, s.ready[0])
  }

  lemma YieldHalf(s: State)
    requires Inv(s) && s.cpu == Executing && s.ready != []
    ensures var s1 := Step(s, DoYield);
      && Inv(s1) && s1.cpu == Switched && s1.current == s.ready[0] && s1.ready == s.ready[1..] + [s.current]
      && (GoesOn(s1, s1.current) <==> ComesBack(s))
  {
    StepInv(s, DoYield);
    StepFrame(s, DoYield, s.ready[0]);
    assert s.ready[0] in s.ready && ThreadOk(s, s.current);
  }

  lemma ResumeHalf(s: State)
    requires Inv(s) && s.cpu == Switched
    ensures Inv(Resume(s))
    ensures Resume(s).cpu == Executing <==> GoesOn(s, s.current)
    ensures GoesOn(s, s.current) ==> Order(Resume(s)) == Order(s)
  {
    ResumeInv(s);
    DeleteCarcassInv(s);
    assert ThreadOk(s, s.current);
    var f := FrameOf(s, s.current);
    if f.InWait? {
      TestEffect(DeleteCarcass(s), f.obj, f.saved, s.current, f.obj);
    }
  }

  lemma OrderRotates(s: State, s1: State, s2: State)
    requires s.ready != [] && s1.current == s.ready[0] && s1.ready == s.ready[1..] + [s.current]
    requires Order(s2) == Order(s1)
    ensures Rotated(Order(s), Order(s2))
  {}

  /** After a round a thread is in its own code again if and only if the one dispatched comes back; the
      round has then rotated the running thread and the ready list by one. */
  lemma RoundRotates(s: State)
    requires Inv(s) && s.cpu == Executing
    ensures Inv(Round(s))
    ensures Round(s).cpu == Executing <==> ComesBack(s)
    ensures ComesBack(s) ==> Rotated(Order(s), Order(Round(s)))
  {
    if s.ready != [] {
      var s1 := Step(s, DoYield);
      YieldHalf(s);
      ResumeHalf(s1);
      if ComesBack(s) {
        OrderRotates(s, s1, Resume(s1));
      }
    }
  }

  predicate Rotated<T(==)>(q: seq<T>, q1: seq<T>) {
    q != [] && q1 == q[1..] + [q[0]]
  }

  /** In each of the next k rounds the thread dispatched comes back to its own code. */
  predicate AllComeBack(s: State, k: nat)
    decreases k
  {
    k > 0 ==> s.cpu == Executing && ComesBack(s) && AllComeBack(Round(s), k - 1)
  }

  function Rounds(s: State, k: nat): State
    requires AllComeBack(s, k)
    decreases k
  {
    if k == 0 then s else Rounds(Round(s), k - 1)
  }

  lemma RotateOnce<T>(q: seq<T>, q1: seq<T>, k: nat, r: seq<T>)
    requires 1 <= k <= |q| && Rotated(q, q1) && r == q1[k-1..] + q1[..k-1]
    ensures r == q[k..] + q[..k]
  {
    assert q1[..k-1] == q[1..k];
    assert q1[k-1..] == q[k..] + [q[0]];
    assert [q[0]] + q[1..k] == q[..k];
  }

  /** k Yields with no other call rotate the running thread and the ready list left by k, whoever is
      on it, as long as every thread that gets the CPU comes back to its own code. */
  lemma {:induction false} YieldsRotate(s: State, k: nat)
    requires Inv(s) && AllComeBack(s, k) && k <= |Order(s)|
    ensures Order(Rounds(s, k)) == Order(s)[k..] + Order(s)[..k]
    decreases k
  {
    if k == 0 {
      assert Order(s)[0..] == Order(s);
    } else {
      RoundRotates(s);
      YieldsRotate(Round(s), k - 1);
      RotateOnce(Order(s), Order(Round(s)), k, Order(Rounds(s, k)));
    }
  }

  lemma WholeRotation<T>(q: seq<T>, r: seq<T>)
    requires r == q[|q|..] + q[..|q|]
    ensures r == q
  {}

  /** One Yield for each of them restores the order. */
  lemma YieldsRestore(s: State)
    requires Inv(s) && AllComeBack(s, |Order(s)|)
    ensures Order(Rounds(s, |Order(s)|)) == Order(s)
  {
    YieldsRotate(s, |Order(s)|);
    WholeRotation(Order(s), Order(Rounds(s, |Order(s)|)));
  }
}
