/** A run in which two calls on a SynchList overlap: preemption inside Append, a wait for the lock, and
    the hand-over of the item. */
module SynchListScenario {
  import opened Wrappers
  import opened KernelSpec
  import opened KernelEffects
  import L = SynchListRuns

  /** Thread 0 has forked thread 1. */
  function Forked(): State {
    State(map[0 := Thread(Running, User), 1 := Thread(Ready, Root)], 0, None, [1], IntOn, map[], Executing)
  }

  lemma ForkedIsReachable()
    ensures ValidRun(Boot(0), [Create(1), DoFork(1)]) && Final(Boot(0), [Create(1), DoFork(1)]) == Forked()
  {
    var s1 := Step(Boot(0), Create(1));
    RunCons(s1, DoFork(1), []);
    RunCons(Boot(0), Create(1), [DoFork(1)]);
  }

  /** Thread 0 is in Append, holds the lock and was preempted; thread 1 runs. */
  function Preempted(): L.Sys {
    L.Sys(State(map[0 := Thread(Ready, InYield(IntOn)), 1 := Thread(Running, User)],
                1, None, [0], IntOn, map[9 := Lk(1, [])], Executing),
          [], map[0 := L.Appending(5)], [], [], L.No)
  }

  /** Thread 1 waits in Remove for the lock; thread 0 runs again. */
  function Contended(): L.Sys {
    L.Sys(State(map[0 := Thread(Running, User), 1 := Thread(Blocked, InWait(9, IntOn))],
                0, None, [], IntOn, map[9 := Lk(1, [1])], Executing),
          [], map[0 := L.Appending(5), 1 := L.Removing], [], [], L.No)
  }

  /** Thread 0 has returned from Append. */
  function Appended(): L.Sys {
    L.Sys(State(map[0 := Thread(Running, User), 1 := Thread(Ready, InWait(9, IntOn))],
                0, None, [1], IntOn, map[9 := Lk(0, [])], Executing),
          [5], map[0 := L.Out, 1 := L.Removing], [5], [], L.No)
  }

  /** Thread 1 has the lock. */
  function Entered(): L.Sys {
    L.Sys(State(map[0 := Thread(Ready, InYield(IntOn)), 1 := Thread(Running, User)],
                1, None, [0], IntOn, map[9 := Lk(1, [])], Executing),
          [5], map[0 := L.Out, 1 := L.Removing], [5], [], L.No)
  }

  /** Thread 1 has returned from Remove. */
  function HandedOver(): L.Sys {
    Entered().(k := Entered().k.(syncs := map[9 := Lk(0, [])]), list := [], pcs := map[0 := L.Out, 1 := L.Out],
               removed := [5])
  }

  predicate Leads(s: L.Sys, run: seq<L.Event>, s': L.Sys) {
    L.ValidRun(s, run, 9) && L.Final(s, run, 9) == s'
  }

  lemma OneEvent(s: L.Sys, e: L.Event, run: seq<L.Event>, s': L.Sys)
    requires L.CanHappen(s, e, 9) && Leads(L.Next(s, e, 9), run, s')
    ensures Leads(s, [e] + run, s')
  {
    L.EventCons(s, e, run, 9);
  }

  lemma LeadsOn(s: L.Sys, a: seq<L.Event>, s1: L.Sys, b: seq<L.Event>, s2: L.Sys)
    requires Leads(s, a, s1) && Leads(s1, b, s2)
    ensures Leads(s, a + b, s2)
  {
    L.EventConcat(s, a, b, 9);
  }

  /** Thread 0 is in Append and holds the lock. */
  function Holding(): L.Sys {
    L.Sys(Forked().(syncs := map[9 := Lk(1, [])]), [], map[0 := L.Appending(5)], [], [], L.No)
  }

  lemma ToHolding()
    ensures Leads(L.NewList(Forked(), 9), [L.BeginAppend(5)], Holding())
  {
    var s := L.NewList(Forked(), 9);
    assert L.Next(s, L.BeginAppend(5), 9).k == Holding().k;
    assert L.Next(s, L.BeginAppend(5), 9) == Holding();
    OneEvent(s, L.BeginAppend(5), [], Holding());
  }

  lemma ToPreempted()
    ensures Leads(Holding(), [L.Kernel(DoYield)] + [L.Kernel(DoResume)], Preempted())
  {
    var s1 := L.Next(Holding(), L.Kernel(DoYield), 9);
    assert s1.k.threads[1].frame == Root && s1.k.ready == [0];
    assert L.Next(s1, L.Kernel(DoResume), 9) == Preempted();
    OneEvent(s1, L.Kernel(DoResume), [], Preempted());
    OneEvent(Holding(), L.Kernel(DoYield), [L.Kernel(DoResume)], Preempted());
  }

  /** Thread 1 has called Remove, which waits for the lock and switches to thread 0. */
  function Waiting(): L.Sys {
    Contended().(k := State(map[0 := Thread(Running, InYield(IntOn)), 1 := Thread(Blocked, InWait(9, IntOn))],
                            0, None, [], IntOff, map[9 := Lk(1, [1])], Switched))
  }

  lemma ToWaiting()
    ensures Leads(Preempted(), [L.BeginRemove], Waiting())
  {
    assert [0][1..] == [] && [] + [1] == [1];
    assert L.Next(Preempted(), L.BeginRemove, 9).k == Waiting().k;
    OneEvent(Preempted(), L.BeginRemove, [], Waiting());
  }

  lemma ToContended()
    ensures Leads(Waiting(), [L.Kernel(DoResume)], Contended())
  {
    assert L.Next(Waiting(), L.Kernel(DoResume), 9).k == Contended().k;
    OneEvent(Waiting(), L.Kernel(DoResume), [], Contended());
  }

  lemma ToAppended()
    ensures Leads(Contended(), [L.ListAppend] + [L.EndAppend], Appended())
  {
    var s1 := L.Next(Contended(), L.ListAppend, 9);
    assert [1][1..] == [] && [] + [1] == [1];
    var k1 := Step(s1.k, Release(9));
    assert k1.threads == Appended().k.threads && k1.syncs == Appended().k.syncs;
    assert L.Next(s1, L.EndAppend, 9) == Appended();
    OneEvent(s1, L.EndAppend, [], Appended());
    OneEvent(Contended(), L.ListAppend, [L.EndAppend], Appended());
  }

  lemma ToEntered()
    ensures Leads(Appended(), [L.Kernel(DoYield)] + [L.Kernel(DoResume)], Entered())
  {
    var s1 := L.Next(Appended(), L.Kernel(DoYield), 9);
    assert [1][1..] == [] && [] + [0] == [0];
    assert s1.k == State(map[0 := Thread(Ready, InYield(IntOn)), 1 := Thread(Running, InWait(9, IntOn))],
                         1, None, [0], IntOff, map[9 := Lk(0, [])], Switched);
    assert L.Next(s1, L.Kernel(DoResume), 9) == Entered();
    OneEvent(s1, L.Kernel(DoResume), [], Entered());
    OneEvent(Appended(), L.Kernel(DoYield), [L.Kernel(DoResume)], Entered());
  }

  lemma ToHandedOver()
    ensures Leads(Entered(), [L.TestEmpty] + ([L.ListRemove] + [L.EndRemove]), HandedOver())
  {
    var s1 := L.Next(Entered(), L.TestEmpty, 9);
    var s2 := L.Next(s1, L.ListRemove, 9);
    assert [5][1..] == [];
    assert Step(s2.k, Release(9)).syncs == map[9 := Lk(0, [])];
    assert L.Next(s2, L.EndRemove, 9) == HandedOver();
    OneEvent(s2, L.EndRemove, [], HandedOver());
    OneEvent(s1, L.ListRemove, [L.EndRemove], HandedOver());
    OneEvent(Entered(), L.TestEmpty, [L.ListRemove] + [L.EndRemove], HandedOver());
  }

  /** From the start there are such runs: thread 0 is preempted inside Append, with the lock; thread 1
      calls Remove and waits in the queue of the lock; thread 0 finishes its call, which wakes thread 1,
      and thread 1 returns with the item. */
  lemma OverlappingCalls() returns (boot: seq<Action>, before: seq<L.Event>, after: seq<L.Event>)
    ensures ValidRun(Boot(0), boot) && Enabled(Final(Boot(0), boot), NewLock(9))
    ensures var s := L.NewList(Final(Boot(0), boot), 9);
      && L.ValidRun(s, before, 9) && L.ValidRun(s, before + after, 9)
      && QueueOf(L.Final(s, before, 9).k, 9) == [1]
      && L.PcOf(L.Final(s, before, 9), 0) == L.Appending(5)
      && L.Final(s, before + after, 9).removed == [5]
      && L.Final(s, before + after, 9).k.current == 1
  {
    ForkedIsReachable();
    boot := [Create(1), DoFork(1)];
    var s := L.NewList(Forked(), 9);
    var begin, turn, wait := [L.BeginAppend(5)], [L.Kernel(DoYield)] + [L.Kernel(DoResume)],
                             [L.BeginRemove] + [L.Kernel(DoResume)];
    ToHolding();
    ToPreempted();
    ToWaiting();
    ToContended();
    LeadsOn(Preempted(), [L.BeginRemove], Waiting(), [L.Kernel(DoResume)], Contended());
    LeadsOn(s, begin, Holding(), turn, Preempted());
    LeadsOn(s, begin + turn, Preempted(), wait, Contended());
    before := begin + turn + wait;
    var finish, take := [L.ListAppend] + [L.EndAppend], [L.TestEmpty] + ([L.ListRemove] + [L.EndRemove]);
    ToAppended();
    ToEntered();
    ToHandedOver();
    LeadsOn(Appended(), turn, Entered(), take, HandedOver());
    LeadsOn(Contended(), finish, Appended(), turn + take, HandedOver());
    after := finish + (turn + take);
    LeadsOn(s, before, Contended(), after, HandedOver());
  }
}
