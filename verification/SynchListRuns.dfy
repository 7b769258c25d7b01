/**
 SynchList over the kernel: threads append to and remove from one list under its lock, while the
 kernel preempts them and runs whatever else it has to run.
 */
module SynchListRuns {
  import opened Wrappers
  import opened KernelSpec
  import opened KernelInvariant
  import opened KernelEffects
  import opened LockProtocol
  import opened ListSpec

  /** Where a thread stands in SynchList::Append or SynchList::Remove. */
  datatype Pc =
    | Out
    | Appending(x: Item)   // in Acquire, or behind it and before list->Append
    | Appended(x: Item)    // before Release
    | Removing             // in Acquire, or behind it and before the test of IsEmpty
    | CanRemove            // the list was not empty, before list->Remove
    | Removed(x: Item)     // before Release

  /** The program stops in ASSERT(FALSE) of Condition::Wait, or in ASSERT(item != NULL). */
  datatype Halt = No | InWaitAssert | OnNullItem

  /** appended and removed are the items of the calls of Append and Remove that returned. */
  datatype Sys = Sys(k: State, list: seq<Item>, pcs: map<Tid, Pc>,
                     appended: seq<Item>, removed: seq<Item>, halt: Halt)

  datatype Event =
    | Kernel(a: Action)
    | BeginAppend(x: Item) | ListAppend | EndAppend
    | BeginRemove | TestEmpty | ListRemove | EndRemove

  function PcOf(s: Sys, t: Tid): Pc {
    if t in s.pcs then s.pcs[t] else Out
  }

  /** l is the lock of the list. Only the list's own code acquires and releases it; inside that code
      a thread does nothing else, but it can be preempted, and interrupt handlers can run. */
  predicate CanHappen(s: Sys, e: Event, l: Oid) {
    var pc := PcOf(s, s.k.current);
    && s.halt == No && IsLock(s.k, l)
    && (e.Kernel? || s.k.cpu == Executing)
    && match e
       case Kernel(a) =>
         && Enabled(s.k, a) && a != Acquire(l) && a != Release(l)
         && (s.k.cpu == Executing && pc != Out ==> a == DoYield || a.HandlerV?)
       case BeginAppend(_) => pc == Out
       case ListAppend => pc.Appending?
       case EndAppend => pc.Appended?
       case BeginRemove => pc == Out
       case TestEmpty => pc == Removing
       case ListRemove => pc == CanRemove
       case EndRemove => pc.Removed?
  }

  /** The step of the kernel behind an event, if there is one. */
  function KernelStep(e: Event, l: Oid): Option<Action> {
    match e
    case Kernel(a) => Some(a)
    case BeginAppend(_) => Some(Acquire(l))
    case BeginRemove => Some(Acquire(l))
    case EndAppend => Some(Release(l))
    case EndRemove => Some(Release(l))
    case _ => None
  }

  function NextKernel(s: Sys, e: Event, l: Oid): State
    requires CanHappen(s, e, l)
  {
    match KernelStep(e, l)
    case Some(a) => Step(s.k, a)
    case None => s.k
  }

  function SetPc(s: Sys, pc: Pc): Sys {
    s.(pcs := s.pcs[s.k.current := pc])
  }

  function NextList(s: Sys, e: Event, l: Oid): Sys
    requires CanHappen(s, e, l)
  {
    var pc := PcOf(s, s.k.current);
    match e
    case Kernel(a) => s
    case BeginAppend(x) => SetPc(s, Appending(x))
    case ListAppend => SetPc(s, Appended(pc.x)).(list := s.list + [pc.x])
    case EndAppend => SetPc(s, Out).(appended := s.appended + [pc.x])
    case BeginRemove => SetPc(s, Removing)
    case TestEmpty => if s.list == [] then s.(halt := InWaitAssert) else SetPc(s, CanRemove)
    case ListRemove =>
      var item := if s.list == [] then NULL else s.list[0];
      var s1 := SetPc(s, Removed(item)).(list := if s.list == [] then [] else s.list[1..]);
      if item == NULL then s1.(halt := OnNullItem) else s1
    case EndRemove => SetPc(s, Out).(removed := s.removed + [pc.x])
  }

  function Next(s: Sys, e: Event, l: Oid): Sys
    requires CanHappen(s, e, l)
  {
    NextList(s, e, l).(k := NextKernel(s, e, l))
  }

  // ----- who waits for the lock -----

  predicate Waiting(k: State, t: Tid, l: Oid) {
    FrameOf(k, t).InWait? && FrameOf(k, t).obj == l
  }

  /** A thread starts to wait for l in its own Acquire and stops when that Acquire returns. */
  lemma StepWaiting(k: State, a: Action, t: Tid, l: Oid)
    requires Inv(k) && Enabled(k, a)
    ensures Waiting(Step(k, a), t, l) <==>
      if t == k.current && (a == P(l) || a == Acquire(l)) then !Returns(k, a, l)
      else Waiting(k, t, l) && !(t == k.current && Returns(k, a, l))
  {
    StepFrame(k, a, t);
    assert ThreadOk(k, k.current);
    if l in k.syncs {
      StepSync(k, a, l);
    }
  }

  // ----- the invariant -----

  /** The threads inside the list's code that are not in Acquire: Acquire has returned. */
  ghost function Critical(s: Sys, l: Oid): set<Tid> {
    set t | t in s.pcs && s.pcs[t] != Out && !Waiting(s.k, t, l)
  }

  predicate Entering(pc: Pc) {
    pc.Appending? || pc == Removing
  }

  predicate Pending(pc: Pc) {
    pc.Appended? || pc.Removed?
  }

  ghost predicate LockSide(s: Sys, l: Oid) {
    && Inv(s.k)
    && Exclusive(s.k, Critical(s, l), l)
    && forall t :: Waiting(s.k, t, l) ==> Entering(PcOf(s, t))
  }

  /** What the items say, for the one thread that changed the list and did not return yet, or when
      there is none. */
  ghost predicate ListSide(s: Sys) {
    && (forall t :: t in s.pcs ==> match s.pcs[t]
          case Appended(x) => s.list != [] && s.appended + [x] == s.removed + s.list
          case Removed(x) => s.appended == s.removed + [x] + s.list
          case CanRemove => s.list != []
          case _ => true)
    && ((forall t :: t in s.pcs ==> !Pending(s.pcs[t])) ==> s.appended == s.removed + s.list)
  }

  lemma CriticalNext(s: Sys, e: Event, l: Oid)
    requires LockSide(s, l) && CanHappen(s, e, l) && KernelStep(e, l).Some?
    ensures Critical(Next(s, e, l), l) == NextHolders(s.k, KernelStep(e, l).value, Critical(s, l), l)
    ensures Allowed(s.k, KernelStep(e, l).value, Critical(s, l), l)
  {
    var a := KernelStep(e, l).value;
    assert ThreadOk(s.k, s.k.current);
    forall t ensures t in Critical(Next(s, e, l), l) <==> t in NextHolders(s.k, a, Critical(s, l), l) {
      CriticalOne(s, e, l, t);
    }
    if a == Release(l) {
      assert s.k.current in Critical(s, l);
    }
  }

  /** Who is inside the list's code after an event. */
  lemma InsideNext(s: Sys, e: Event, l: Oid, t: Tid)
    requires CanHappen(s, e, l) && KernelStep(e, l).Some?
    ensures PcOf(Next(s, e, l), t) != Out <==>
      if t == s.k.current && KernelStep(e, l) == Some(Acquire(l)) then true
      else if t == s.k.current && KernelStep(e, l) == Some(Release(l)) then false
      else PcOf(s, t) != Out
    ensures KernelStep(e, l) == Some(Acquire(l)) ==> PcOf(s, s.k.current) == Out
  {}

  lemma CriticalMove(s: Sys, s': Sys, a: Action, l: Oid, t: Tid)
    requires Inv(s.k) && Enabled(s.k, a) && IsLock(s.k, l) && s'.k == Step(s.k, a)
    requires Waiting(s.k, t, l) ==> PcOf(s, t) != Out
    requires a == Acquire(l) ==> PcOf(s, s.k.current) == Out
    requires PcOf(s', t) != Out <==>
      if t == s.k.current && a == Acquire(l) then true
      else if t == s.k.current && a == Release(l) then false
      else PcOf(s, t) != Out
    ensures t in Critical(s', l) <==> t in NextHolders(s.k, a, Critical(s, l), l)
  {
    StepWaiting(s.k, a, t, l);
    assert ThreadOk(s.k, s.k.current);
  }

  lemma CriticalOne(s: Sys, e: Event, l: Oid, t: Tid)
    requires LockSide(s, l) && CanHappen(s, e, l) && KernelStep(e, l).Some?
    ensures t in Critical(Next(s, e, l), l) <==> t in NextHolders(s.k, KernelStep(e, l).value, Critical(s, l), l)
  {
    InsideNext(s, e, l, t);
    CriticalMove(s, Next(s, e, l), KernelStep(e, l).value, l, t);
  }

  lemma WaitersEnter(s: Sys, e: Event, l: Oid, t: Tid)
    requires LockSide(s, l) && CanHappen(s, e, l) && Waiting(NextKernel(s, e, l), t, l)
    ensures Entering(PcOf(NextList(s, e, l), t))
  {
    assert ThreadOk(s.k, s.k.current);
    if KernelStep(e, l).Some? {
      StepWaiting(s.k, KernelStep(e, l).value, t, l);
    }
  }

  lemma NextExclusive(s: Sys, e: Event, l: Oid)
    requires LockSide(s, l) && CanHappen(s, e, l)
    ensures Inv(NextKernel(s, e, l))
    ensures Exclusive(NextKernel(s, e, l), Critical(Next(s, e, l), l), l)
  {
    if KernelStep(e, l).Some? {
      var a := KernelStep(e, l).value;
      StepInv(s.k, a);
      CriticalNext(s, e, l);
      StepExclusive(s.k, a, Critical(s, l), l);
    } else {
      assert ThreadOk(s.k, s.k.current);
      assert Critical(Next(s, e, l), l) == Critical(s, l);
    }
  }

  lemma NextLockSide(s: Sys, e: Event, l: Oid)
    requires LockSide(s, l) && CanHappen(s, e, l)
    ensures LockSide(Next(s, e, l), l)
  {
    NextExclusive(s, e, l);
    forall t | Waiting(NextKernel(s, e, l), t, l) ensures Entering(PcOf(NextList(s, e, l), t)) {
      WaitersEnter(s, e, l, t);
    }
  }

  lemma OnlyOneInside(s: Sys, l: Oid, t: Tid, u: Tid)
    requires LockSide(s, l) && t in Critical(s, l) && u in Critical(s, l)
    ensures t == u
  {
    var h := Critical(s, l);
    assert SyncOk(s.k, l);
    assert |h| == 1 && |h - {t}| == 0;
    assert h == {t} + (h - {t});
  }

  lemma NextListSide(s: Sys, e: Event, l: Oid)
    requires LockSide(s, l) && ListSide(s) && CanHappen(s, e, l)
    ensures ListSide(Next(s, e, l))
  {
    var t := s.k.current;
    var s' := Next(s, e, l);
    if !e.Kernel? && PcOf(s, t) != Out {
      assert ThreadOk(s.k, t);
      assert t in Critical(s, l);
      forall u | u in s.pcs && u != t ensures s.pcs[u] == Out || Entering(s.pcs[u]) {
        if s.pcs[u] != Out && !Entering(s.pcs[u]) {
          OnlyOneInside(s, l, t, u);
        }
      }
      assert !Pending(PcOf(s, t)) ==> s.appended == s.removed + s.list;
      InsideStep(s, e, l);
    } else {
      assert forall u :: u in s.pcs && u != t ==> s'.pcs[u] == s.pcs[u];
    }
  }

  lemma InsideStep(s: Sys, e: Event, l: Oid)
    requires CanHappen(s, e, l) && ListSide(s) && s.k.current in s.pcs && !e.Kernel?
    requires s.pcs[s.k.current] != Out
    requires forall u :: u in s.pcs && u != s.k.current ==> s.pcs[u] == Out || Entering(s.pcs[u])
    requires !Pending(s.pcs[s.k.current]) ==> s.appended == s.removed + s.list
    ensures ListSide(Next(s, e, l))
  {
    var t := s.k.current;
    var s' := Next(s, e, l);
    match e
    case ListAppend =>
      assert s'.pcs[t].Appended?;
      assert s.appended + [s.pcs[t].x] == s.removed + s'.list;
    case EndAppend =>
    case ListRemove =>
      assert s'.pcs[t].Removed?;
      assert s.list == [s.list[0]] + s.list[1..];
      assert s.removed + s.list == s.removed + [s.list[0]] + s.list[1..];
    case EndRemove =>
    case TestEmpty =>
  }

  /** Where the program can stop: in Wait with an empty list, or on a NULL that was appended. */
  ghost predicate HaltSide(s: Sys) {
    s.halt == InWaitAssert ==> s.list == [] && s.appended == s.removed
  }

  lemma NextHaltSide(s: Sys, e: Event, l: Oid)
    requires LockSide(s, l) && ListSide(s) && CanHappen(s, e, l)
    ensures HaltSide(Next(s, e, l))
  {
    if e == TestEmpty {
      var t := s.k.current;
      assert ThreadOk(s.k, t);
      assert t in Critical(s, l);
      forall u | u in s.pcs ensures !Pending(s.pcs[u]) {
        if Pending(s.pcs[u]) {
          OnlyOneInside(s, l, t, u);
        }
      }
    }
  }

  // ----- runs -----

  predicate ValidRun(s: Sys, run: seq<Event>, l: Oid)
    decreases run
  {
    run == [] || (CanHappen(s, run[0], l) && ValidRun(Next(s, run[0], l), run[1..], l))
  }

  function Final(s: Sys, run: seq<Event>, l: Oid): Sys
    requires ValidRun(s, run, l)
    decreases run
  {
    if run == [] then s else Final(Next(s, run[0], l), run[1..], l)
  }

  lemma {:induction false} RunSides(s: Sys, run: seq<Event>, l: Oid)
    requires LockSide(s, l) && ListSide(s) && HaltSide(s) && ValidRun(s, run, l)
    ensures var s' := Final(s, run, l);
      LockSide(s', l) && ListSide(s') && HaltSide(s')
    decreases run
  {
    if run != [] {
      NextLockSide(s, run[0], l);
      NextListSide(s, run[0], l);
      NextHaltSide(s, run[0], l);
      RunSides(Next(s, run[0], l), run[1..], l);
    }
  }

  /** A new SynchList: an empty list and a free lock in a kernel that may have run before. */
  function NewList(k: State, l: Oid): Sys
    requires Enabled(k, NewLock(l))
  {
    Sys(Step(k, NewLock(l)), [], map[], [], [], No)
  }

  lemma NewListSides(k: State, l: Oid)
    requires Inv(k) && Enabled(k, NewLock(l))
    ensures var s := NewList(k, l); LockSide(s, l) && ListSide(s) && HaltSide(s)
  {
    var s := NewList(k, l);
    StepInv(k, NewLock(l));
    NewLockIsFree(k, l);
    assert Critical(s, l) == {};
    forall t ensures !Waiting(s.k, t, l) {
      assert t in k.threads ==> ThreadOk(k, t);
    }
  }

  /** The arguments of the calls of Append that returned in a run, in the order of their returns; args
      holds the argument of each thread's last call. */
  function Arguments(s: Sys, run: seq<Event>, l: Oid, args: map<Tid, Item>): seq<Item>
    requires ValidRun(s, run, l)
    decreases run
  {
    if run == [] then []
    else
      var t, s', rest := s.k.current, Next(s, run[0], l), run[1..];
      match run[0]
      case BeginAppend(x) => Arguments(s', rest, l, args[t := x])
      case EndAppend => (if t in args then [args[t]] else []) + Arguments(s', rest, l, args)
      case _ => Arguments(s', rest, l, args)
  }

  /** How many calls of Remove returned in a run. */
  function CountRemoves(run: seq<Event>): nat {
    if run == [] then 0 else (if run[0] == EndRemove then 1 else 0) + CountRemoves(run[1..])
  }

  ghost predicate Remembered(s: Sys, args: map<Tid, Item>) {
    forall t :: t in s.pcs && (s.pcs[t].Appending? || s.pcs[t].Appended?) ==> t in args && s.pcs[t].x == args[t]
  }

  function ArgsAfter(s: Sys, e: Event, args: map<Tid, Item>): map<Tid, Item> {
    if e.BeginAppend? then args[s.k.current := e.x] else args
  }

  lemma NextRemembered(s: Sys, e: Event, l: Oid, args: map<Tid, Item>)
    requires CanHappen(s, e, l) && Remembered(s, args)
    ensures Remembered(Next(s, e, l), ArgsAfter(s, e, args))
    ensures Next(s, e, l).appended == s.appended + if e == EndAppend then [args[s.k.current]] else []
    ensures e == EndAppend ==> s.k.current in args
    ensures |Next(s, e, l).removed| == |s.removed| + if e == EndRemove then 1 else 0
  {}

  lemma ArgumentsStep(s: Sys, run: seq<Event>, l: Oid, args: map<Tid, Item>)
    requires ValidRun(s, run, l) && run != []
    ensures Arguments(s, run, l, args) ==
      (if run[0] == EndAppend && s.k.current in args then [args[s.k.current]] else [])
        + Arguments(Next(s, run[0], l), run[1..], l, ArgsAfter(s, run[0], args))
  {}

  lemma Assoc<T>(a: seq<T>, b: seq<T>, c: seq<T>)
    ensures (a + b) + c == a + (b + c)
  {}

  lemma {:induction false} AppendedByCalls(s: Sys, run: seq<Event>, l: Oid, args: map<Tid, Item>)
    requires ValidRun(s, run, l) && Remembered(s, args)
    ensures Final(s, run, l).appended == s.appended + Arguments(s, run, l, args)
    decreases run
  {
    if run != [] {
      var s', rest, args' := Next(s, run[0], l), run[1..], ArgsAfter(s, run[0], args);
      NextRemembered(s, run[0], l, args);
      ArgumentsStep(s, run, l, args);
      AppendedByCalls(s', rest, l, args');
      Assoc(s.appended, if run[0] == EndAppend then [args[s.k.current]] else [], Arguments(s', rest, l, args'));
    }
  }

  lemma {:induction false} RemovedByCalls(s: Sys, run: seq<Event>, l: Oid, args: map<Tid, Item>)
    requires ValidRun(s, run, l) && Remembered(s, args)
    ensures |Final(s, run, l).removed| == |s.removed| + CountRemoves(run)
    decreases run
  {
    if run != [] {
      NextRemembered(s, run[0], l, args);
      RemovedByCalls(Next(s, run[0], l), run[1..], l, ArgsAfter(s, run[0], args));
    }
  }

  /** In every run of concurrent calls, preemptions and interrupts: appended holds the arguments of the
      calls of Append that returned; what Remove returned is, in order, the front of them, one for each
      call that returned; when the lock is free the list holds exactly the rest; and if the program stops
      in Wait, everything appended was removed. */
  lemma SynchListIsFifo(k: State, l: Oid, run: seq<Event>)
    requires Inv(k) && Enabled(k, NewLock(l)) && ValidRun(NewList(k, l), run, l)
    ensures var s := Final(NewList(k, l), run, l);
      && IsLock(s.k, l)
      && s.appended == Arguments(NewList(k, l), run, l, map[])
      && s.removed <= s.appended && |s.removed| == CountRemoves(run)
      && (s.k.syncs[l].held == 0 ==> s.appended == s.removed + s.list)
      && (s.halt == InWaitAssert ==> s.appended == s.removed)
  {
    NewListSides(k, l);
    RunSides(NewList(k, l), run, l);
    AppendedByCalls(NewList(k, l), run, l, map[]);
    RemovedByCalls(NewList(k, l), run, l, map[]);
    FreeListHoldsTheRest(Final(NewList(k, l), run, l), l);
  }

  lemma FreeListHoldsTheRest(s: Sys, l: Oid)
    requires LockSide(s, l) && ListSide(s)
    ensures s.removed <= s.appended
    ensures s.k.syncs[l].held == 0 ==> s.appended == s.removed + s.list
  {
    if s.k.syncs[l].held == 0 {
      forall t | t in s.pcs ensures !Pending(s.pcs[t]) {
        assert t !in Critical(s, l);
      }
    }
    if t :| t in s.pcs && Pending(s.pcs[t]) {
      PrefixOfBoth(s, t);
    }
  }

  /** In every run from a new list, two threads in the list's code that are past Acquire are one
      thread. */
  lemma OneInside(k: State, l: Oid, run: seq<Event>, t: Tid, u: Tid)
    requires Inv(k) && Enabled(k, NewLock(l)) && ValidRun(NewList(k, l), run, l)
    requires var s := Final(NewList(k, l), run, l);
      && PcOf(s, t) != Out && !Waiting(s.k, t, l)
      && PcOf(s, u) != Out && !Waiting(s.k, u, l)
    ensures t == u
  {
    NewListSides(k, l);
    RunSides(NewList(k, l), run, l);
    OnlyOneInside(Final(NewList(k, l), run, l), l, t, u);
  }

  lemma PrefixOfBoth(s: Sys, t: Tid)
    requires ListSide(s) && t in s.pcs && Pending(s.pcs[t])
    ensures s.removed <= s.appended
  {
    var x := s.pcs[t].x;
    if s.pcs[t].Appended? {
      var all := s.appended + [x];
      assert s.removed == all[..|s.removed|] && |s.removed| < |all|;
    } else {
      assert s.removed == s.appended[..|s.removed|];
    }
  }

  // ----- NULL items -----

  ghost predicate NoNulls(s: Sys) {
    && s.halt != OnNullItem
    && NULL !in s.list
    && forall t :: t in s.pcs && (s.pcs[t].Appending? || s.pcs[t].Appended?) ==> s.pcs[t].x != NULL
  }

  lemma {:induction false} NoNullFrom(s: Sys, run: seq<Event>, l: Oid)
    requires LockSide(s, l) && ListSide(s) && HaltSide(s) && NoNulls(s)
    requires ValidRun(s, run, l) && BeginAppend(NULL) !in run
    ensures Final(s, run, l).halt != OnNullItem
    decreases run
  {
    if run != [] {
      var e, rest := run[0], run[1..];
      assert e in run && BeginAppend(NULL) !in rest;
      NextLockSide(s, e, l);
      NextListSide(s, e, l);
      NextHaltSide(s, e, l);
      NextNoNulls(s, e, l);
      NoNullFrom(Next(s, e, l), rest, l);
    }
  }

  lemma NextNoNulls(s: Sys, e: Event, l: Oid)
    requires LockSide(s, l) && ListSide(s) && NoNulls(s) && CanHappen(s, e, l) && e != BeginAppend(NULL)
    ensures NoNulls(Next(s, e, l))
  {
    var t, s' := s.k.current, Next(s, e, l);
    assert forall u :: u in s.pcs && u != t ==> s'.pcs[u] == s.pcs[u];
    assert e == ListRemove ==> t in s.pcs && s.list != [];
  }

  /** In every run from a new list to which no NULL is appended, ASSERT(item != NULL) in Remove does
      not fail. */
  lemma ItemIsNeverNull(k: State, l: Oid, run: seq<Event>)
    requires Inv(k) && Enabled(k, NewLock(l)) && ValidRun(NewList(k, l), run, l)
    requires BeginAppend(NULL) !in run
    ensures Final(NewList(k, l), run, l).halt != OnNullItem
  {
    NewListSides(k, l);
    NoNullFrom(NewList(k, l), run, l);
  }

  // ----- where the program stops -----

  lemma {:induction false} LastEvent(s: Sys, run: seq<Event>, l: Oid)
    requires ValidRun(s, run, l) && run != []
    ensures var front := run[..|run| - 1];
      && ValidRun(s, front, l) && CanHappen(Final(s, front, l), run[|run| - 1], l)
      && Final(s, run, l) == Next(Final(s, front, l), run[|run| - 1], l)
    decreases run
  {
    if |run| > 1 {
      LastEvent(Next(s, run[0], l), run[1..], l);
      assert run[1..][..|run| - 2] == run[..|run| - 1][1..];
    } else {
      assert run[..|run| - 1] == [];
    }
  }

  /** A thread that tests or removes is alone in the list's code, so the items are all accounted for. */
  lemma AllAccounted(s: Sys, l: Oid)
    requires LockSide(s, l) && ListSide(s) && IsLock(s.k, l) && s.k.cpu == Executing
    requires PcOf(s, s.k.current) != Out && !Pending(PcOf(s, s.k.current))
    ensures s.appended == s.removed + s.list
    ensures PcOf(s, s.k.current) == CanRemove ==> s.list != []
  {
    var t := s.k.current;
    assert ThreadOk(s.k, t);
    assert t in Critical(s, l);
    forall u | u in s.pcs ensures !Pending(s.pcs[u]) {
      if Pending(s.pcs[u]) {
        OnlyOneInside(s, l, t, u);
      }
    }
  }

  lemma TestStops(s: Sys, l: Oid)
    requires LockSide(s, l) && ListSide(s) && CanHappen(s, TestEmpty, l)
    ensures Next(s, TestEmpty, l).halt == InWaitAssert <==> s.appended == s.removed
  {
    AllAccounted(s, l);
  }

  lemma RemoveStops(s: Sys, l: Oid)
    requires LockSide(s, l) && ListSide(s) && CanHappen(s, ListRemove, l)
    ensures |s.removed| < |s.appended|
    ensures Next(s, ListRemove, l).halt == OnNullItem <==> s.appended[|s.removed|] == NULL
  {
    AllAccounted(s, l);
  }

  /** In every run from a new list, the program stops in Wait exactly when the last event was a test
      of IsEmpty made when every item appended had been removed. */
  lemma StopsInWait(k: State, l: Oid, run: seq<Event>)
    requires Inv(k) && Enabled(k, NewLock(l)) && ValidRun(NewList(k, l), run, l)
    ensures var s := Final(NewList(k, l), run, l);
      s.halt == InWaitAssert <==> run != [] && run[|run| - 1] == TestEmpty && s.appended == s.removed
  {
    if run != [] {
      var front := run[..|run| - 1];
      LastEvent(NewList(k, l), run, l);
      NewListSides(k, l);
      RunSides(NewList(k, l), front, l);
      if run[|run| - 1] == TestEmpty {
        TestStops(Final(NewList(k, l), front, l), l);
      }
    }
  }

  /** And it stops in ASSERT(item != NULL) exactly when the last event was the removal of an item that
      was appended as NULL: the first one that was not removed before. */
  lemma StopsOnNull(k: State, l: Oid, run: seq<Event>)
    requires Inv(k) && Enabled(k, NewLock(l)) && ValidRun(NewList(k, l), run, l)
    ensures var s := Final(NewList(k, l), run, l);
      s.halt == OnNullItem <==>
        && run != [] && run[|run| - 1] == ListRemove
        && |s.removed| < |s.appended| && s.appended[|s.removed|] == NULL
  {
    if run != [] {
      var front := run[..|run| - 1];
      LastEvent(NewList(k, l), run, l);
      NewListSides(k, l);
      RunSides(NewList(k, l), front, l);
      if run[|run| - 1] == ListRemove {
        RemoveStops(Final(NewList(k, l), front, l), l);
      }
    }
  }

  // ----- what a call does -----

  /** Is s a state of the concurrent calls on a new list with lock l? */
  ghost predicate Reached(k: State, l: Oid, run: seq<Event>, s: Sys) {
    Inv(k) && Enabled(k, NewLock(l)) && ValidRun(NewList(k, l), run, l) && s == Final(NewList(k, l), run, l)
  }

  lemma ReachedSides(k: State, l: Oid, run: seq<Event>, s: Sys)
    requires Reached(k, l, run, s)
    ensures LockSide(s, l)
  {
    NewListSides(k, l);
    RunSides(NewList(k, l), run, l);
  }

  /** Preemption, interrupts and what other threads do leave the list and every call as they are. */
  lemma KernelEvents(s: Sys, e: Event, l: Oid, t: Tid)
    requires CanHappen(s, e, l)
    ensures e.Kernel? ==> Next(s, e, l) == s.(k := Step(s.k, e.a))
    ensures t != s.k.current ==> PcOf(Next(s, e, l), t) == PcOf(s, t)
  {}

  lemma EventCons(s: Sys, e: Event, run: seq<Event>, l: Oid)
    requires CanHappen(s, e, l) && ValidRun(Next(s, e, l), run, l)
    ensures ValidRun(s, [e] + run, l) && Final(s, [e] + run, l) == Final(Next(s, e, l), run, l)
  {
    assert ([e] + run)[1..] == run;
  }

  lemma TwoEvents(s: Sys, e: Event, f: Event, l: Oid)
    requires CanHappen(s, e, l) && CanHappen(Next(s, e, l), f, l)
    ensures ValidRun(s, [e, f], l) && Final(s, [e, f], l) == Next(Next(s, e, l), f, l)
  {
    EventCons(Next(s, e, l), f, [], l);
    EventCons(s, e, [f], l);
    assert [e] + [f] == [e, f] && [f] + [] == [f];
  }

  lemma ThreeEvents(s: Sys, e: Event, f: Event, g: Event, l: Oid)
    requires CanHappen(s, e, l) && CanHappen(Next(s, e, l), f, l) && CanHappen(Next(Next(s, e, l), f, l), g, l)
    ensures ValidRun(s, [e, f, g], l) && Final(s, [e, f, g], l) == Next(Next(Next(s, e, l), f, l), g, l)
  {
    TwoEvents(Next(s, e, l), f, g, l);
    EventCons(s, e, [f, g], l);
    assert [e] + [f, g] == [e, f, g];
  }

  /** A call of Append, from the return of its Acquire on: whatever the state, it puts its item at the
      end of the list, releases the lock and returns. */
  lemma AppendReturns(k: State, l: Oid, run: seq<Event>, s: Sys)
    requires Reached(k, l, run, s) && s.halt == No && s.k.cpu == Executing
    requires PcOf(s, s.k.current).Appending?
    ensures ValidRun(s, [ListAppend, EndAppend], l)
    ensures var x := PcOf(s, s.k.current).x;
      Final(s, [ListAppend, EndAppend], l) ==
        Sys(Step(s.k, Release(l)), s.list + [x], s.pcs[s.k.current := Out], s.appended + [x], s.removed, No)
  {
    ReachedSides(k, l, run, s);
    TwoEvents(s, ListAppend, EndAppend, l);
  }

  /** A call of Remove, from the return of its Acquire on: when the first item is not NULL, it takes
      it off the list, releases the lock and returns it. */
  lemma RemoveReturns(k: State, l: Oid, run: seq<Event>, s: Sys)
    requires Reached(k, l, run, s) && s.halt == No && s.k.cpu == Executing
    requires PcOf(s, s.k.current) == Removing && s.list != [] && s.list[0] != NULL
    ensures ValidRun(s, [TestEmpty, ListRemove, EndRemove], l)
    ensures Final(s, [TestEmpty, ListRemove, EndRemove], l) ==
      Sys(Step(s.k, Release(l)), s.list[1..], s.pcs[s.k.current := Out], s.appended, s.removed + [s.list[0]], No)
  {
    ReachedSides(k, l, run, s);
    ThreeEvents(s, TestEmpty, ListRemove, EndRemove, l);
  }

  /** Otherwise it stops the program: in Wait when the list is empty, else in the ASSERT. */
  lemma RemoveHalts(k: State, l: Oid, run: seq<Event>, s: Sys)
    requires Reached(k, l, run, s) && s.halt == No && s.k.cpu == Executing
    requires PcOf(s, s.k.current) == Removing && (s.list == [] || s.list[0] == NULL)
    ensures CanHappen(s, TestEmpty, l)
    ensures s.list == [] ==> Next(s, TestEmpty, l) == s.(halt := InWaitAssert)
    ensures s.list != [] ==>
      ValidRun(s, [TestEmpty, ListRemove], l) && Final(s, [TestEmpty, ListRemove], l).halt == OnNullItem
  {
    ReachedSides(k, l, run, s);
    if s.list != [] {
      TwoEvents(s, TestEmpty, ListRemove, l);
    }
  }

  lemma OneMore(k: State, l: Oid, run: seq<Event>, s: Sys, e: Event)
    requires Reached(k, l, run, s) && CanHappen(s, e, l)
    ensures Reached(k, l, run + [e], Next(s, e, l))
  {
    EventConcat(NewList(k, l), run, [e], l);
  }

  lemma Rejoin<T>(a: seq<T>, b: seq<T>)
    ensures a == [] ==> a + b == b
    ensures a != [] ==> [a[0]] + (a[1..] + b) == a + b
  {}

  lemma {:induction false} EventConcat(s: Sys, a: seq<Event>, b: seq<Event>, l: Oid)
    requires ValidRun(s, a, l) && ValidRun(Final(s, a, l), b, l)
    ensures ValidRun(s, a + b, l) && Final(s, a + b, l) == Final(Final(s, a, l), b, l)
    decreases a
  {
    Rejoin(a, b);
    if a != [] {
      EventConcat(Next(s, a[0], l), a[1..], b, l);
      EventCons(s, a[0], a[1..] + b, l);
    }
  }

  /** A whole call of Append that finds the lock free. */
  lemma FreeAppend(k: State, l: Oid, run: seq<Event>, s: Sys, x: Item)
    requires Reached(k, l, run, s) && s.halt == No && s.k.cpu == Executing
    requires PcOf(s, s.k.current) == Out && IsLock(s.k, l) && s.k.syncs[l].held == 0
    ensures ValidRun(s, [BeginAppend(x), ListAppend, EndAppend], l)
    ensures Final(s, [BeginAppend(x), ListAppend, EndAppend], l) ==
      Sys(Step(Step(s.k, Acquire(l)), Release(l)), s.list + [x], s.pcs[s.k.current := Out],
          s.appended + [x], s.removed, No)
  {
    ReachedSides(k, l, run, s);
    var s1 := Next(s, BeginAppend(x), l);
    OneMore(k, l, run, s, BeginAppend(x));
    StepScheduled(s.k, Acquire(l));
    AppendReturns(k, l, run + [BeginAppend(x)], s1);
    EventCons(s, BeginAppend(x), [ListAppend, EndAppend], l);
    assert [BeginAppend(x)] + [ListAppend, EndAppend] == [BeginAppend(x), ListAppend, EndAppend];
  }
}
