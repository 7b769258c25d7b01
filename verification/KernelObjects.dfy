/**
 The kernel's classes: threads, semaphores and locks on the heap, and the globals of system.cc
 with the scheduler's ready list. A method runs one segment of the code, up to the next SWITCH or
 the idle loop, and updates the objects in place; each is proved to do to the abstract state
 exactly what the function of KernelSpec.dfy says.
 */
module KernelObjects {
  import opened Wrappers
  import S = KernelSpec

  type Tid = S.Tid
  type Oid = S.Oid

  class Thread {
    const id: Tid
    var status: S.Status
    /** What the stack of the thread holds while it does not run. */
    var frame: S.Frame

    constructor (id: Tid)
      ensures this.id == id && status == S.JustCreated && frame == S.NotForked
    {
      this.id := id;
      status := S.JustCreated;
      frame := S.NotForked;
    }
  }

  class Kernel {
    var currentThread: Thread
    var threadToBeDestroyed: Thread?
    var readyList: seq<Tid>
    var level: S.Level
    var cpu: S.Cpu

    /** The objects that exist, by address. */
    var threads: map<Tid, Thread>
    var sems: map<Oid, Semaphore>
    var locks: map<Oid, Lock>

    ghost predicate Known(t: Thread)
      reads this
    {
      t.id in threads && threads[t.id] == t
    }

    /** A list holds addresses of threads, as the void * items of List do. */
    ghost predicate AllKnown(q: seq<Tid>)
      reads this
    {
      forall t :: t in q ==> t in threads
    }

    /** The abstract state; Valid ties it to the objects. */
    ghost var abs: S.State

    ghost predicate ThreadsOk()
      reads this, threads.Values
    {
      && abs.threads.Keys == threads.Keys
      && forall t :: t in threads ==>
           && threads[t].id == t && abs.threads[t] == S.Thread(threads[t].status, threads[t].frame)
    }

    ghost predicate SemOk(o: Oid)
      requires o in sems
      reads this, sems.Values
    {
      && sems[o].id == o && AllKnown(sems[o].queue)
      && o in abs.syncs && abs.syncs[o] == S.Sem(sems[o].value, sems[o].queue)
    }

    ghost predicate LockOk(o: Oid)
      requires o in locks
      reads this, locks.Values
    {
      && locks[o].id == o && AllKnown(locks[o].queue)
      && o in abs.syncs && abs.syncs[o] == S.Lk(locks[o].held, locks[o].queue)
    }

    ghost predicate SyncsOk()
      reads this, sems.Values, locks.Values
    {
      && abs.syncs.Keys == sems.Keys + locks.Keys && sems.Keys !! locks.Keys
      && (forall o :: o in sems ==> SemOk(o))
      && (forall o :: o in locks ==> LockOk(o))
    }

    ghost predicate GlobalsOk()
      reads this
    {
      && Known(currentThread) && abs.current == currentThread.id
      && (threadToBeDestroyed == null ==> abs.toBeDestroyed == None)
      && (threadToBeDestroyed != null ==>
            Known(threadToBeDestroyed) && abs.toBeDestroyed == Some(threadToBeDestroyed.id))
      && AllKnown(readyList) && abs.ready == readyList
      && abs.level == level && abs.cpu == cpu
    }

    /** Every object the kernel has made. */
    ghost function Objects(): set<object>
      reads this
    {
      threads.Values + sems.Values + locks.Values
    }

    ghost predicate Valid()
      reads this, threads.Values, sems.Values, locks.Values
    {
      GlobalsOk() && ThreadsOk() && SyncsOk()
    }

    /** Initialize. */
    constructor (main: Tid)
      ensures Valid() && abs == S.Boot(main)
      ensures fresh(threads.Values) && sems == map[] && locks == map[]
    {
      var t := new Thread(main);
      t.status := S.Running;
      t.frame := S.User;
      currentThread := t;
      threadToBeDestroyed := null;
      readyList := [];
      level := S.IntOn;
      cpu := S.Executing;
      threads := map[main := t];
      sems := map[];
      locks := map[];
      abs := S.Boot(main);
    }

    method SetLevel(l: S.Level) returns (oldLevel: S.Level)
      requires Valid()
      modifies this`level, this`abs
      ensures Valid() && oldLevel == old(level)
      ensures abs == old(abs).(level := l)
    {
      oldLevel := level;
      level := l;
      abs := abs.(level := l);
    }

    method SetStatus(t: Thread, st: S.Status)
      requires Valid() && Known(t)
      modifies t`status, this`abs
      ensures Valid() && abs == S.SetStatus(old(abs), t.id, st)
    {
      t.status := st;
      abs := S.SetStatus(abs, t.id, st);
    }

    method SetCpu(c: S.Cpu)
      requires Valid()
      modifies this`cpu, this`abs
      ensures Valid() && abs == old(abs).(cpu := c)
    {
      cpu := c;
      abs := abs.(cpu := c);
    }

    /** Stands for the part of the thread's stack that says where its code is. */
    method SetFrame(t: Thread, f: S.Frame)
      requires Valid() && Known(t)
      modifies t`frame, this`abs
      ensures Valid() && abs == S.SetFrame(old(abs), t.id, f)
    {
      t.frame := f;
      abs := S.SetFrame(abs, t.id, f);
    }

    // ----- scheduler.cc -----

    method ReadyToRun(t: Thread)
      requires Valid() && Known(t)
      modifies t`status, this`readyList, this`abs
      ensures Valid() && abs == S.ReadyToRun(old(abs), t.id)
    {
      SetStatus(t, S.Ready);
      AppendReady(t);
    }

    /** readyList->Append. */
    method AppendReady(t: Thread)
      requires Valid() && Known(t)
      modifies this`readyList, this`abs
      ensures Valid() && abs == old(abs).(ready := old(abs).ready + [t.id])
    {
      readyList := readyList + [t.id];
      abs := abs.(ready := abs.ready + [t.id]);
    }

    method FindNextToRun() returns (next: Thread?)
      requires Valid()
      modifies this`readyList, this`abs
      ensures Valid()
      ensures next == null <==> old(abs).ready == []
      ensures next == null ==> abs == old(abs)
      ensures next != null ==> Known(next) && next.id == old(abs).ready[0]
      ensures next != null ==> abs == old(abs).(ready := old(abs).ready[1..])
    {
      if readyList == [] {
        next := null;
      } else {
        next := threads[readyList[0]];
        readyList := readyList[1..];
        abs := abs.(ready := abs.ready[1..]);
      }
    }

    /** Run up to and including SWITCH. */
    method Run(next: Thread)
      requires Valid() && Known(next)
      modifies next`status, this`currentThread, this`cpu, this`abs
      ensures Valid() && abs == S.Run(old(abs), next.id)
    {
      currentThread := next;
      abs := abs.(current := next.id);
      SetStatus(currentThread, S.Running);
      SetCpu(S.Switched);
    }

    /** The part of Run behind SWITCH. */
    method DeleteCarcass()
      requires Valid()
      modifies this`threadToBeDestroyed, this`cpu, this`abs, threads.Values
      ensures Valid() && abs == S.DeleteCarcass(old(abs))
    {
      if threadToBeDestroyed != null {
        if threadToBeDestroyed == currentThread || threadToBeDestroyed.frame == S.Freed {
          SetCpu(S.Crashed);
        } else {
          SetFrame(threadToBeDestroyed, S.Freed);
          threadToBeDestroyed := null;
          abs := abs.(toBeDestroyed := None);
        }
      }
    }

    // ----- thread.cc -----

    /** One test of the loop in Sleep, and the dispatch behind the loop. */
    method SleepTest()
      requires Valid()
      modifies this`readyList, this`currentThread, this`cpu, this`abs, threads.Values
      ensures Valid() && abs == S.SleepTest(old(abs))
    {
      var next := FindNextToRun();
      if next == null {
        SetCpu(S.Idling);
      } else {
        Run(next);
      }
    }

    method Sleep()
      requires Valid()
      modifies this`readyList, this`currentThread, this`cpu, this`abs, threads.Values
      ensures Valid() && abs == S.Sleep(old(abs))
    {
      if level != S.IntOff {
        SetCpu(S.Crashed);
      } else {
        SetStatus(currentThread, S.Blocked);
        SleepTest();
      }
    }

    method Yield()
      requires Valid()
      modifies this`readyList, this`currentThread, this`cpu, this`level, this`abs, threads.Values
      ensures Valid() && abs == S.Yield(old(abs))
    {
      var oldLevel := SetLevel(S.IntOff);
      var next := FindNextToRun();
      if next != null {
        SetFrame(currentThread, S.InYield(oldLevel));
        ReadyToRun(currentThread);
        Run(next);
      } else {
        var _ := SetLevel(oldLevel);
      }
    }

    method Fork(t: Thread)
      requires Valid() && Known(t)
      modifies this`readyList, this`level, this`abs, t
      ensures Valid() && abs == S.Fork(old(abs), t.id)
    {
      SetFrame(t, S.Root);
      var oldLevel := SetLevel(S.IntOff);
      ReadyToRun(t);
      var _ := SetLevel(oldLevel);
    }

    method Finish()
      requires Valid()
      modifies this`readyList, this`currentThread, this`cpu, this`level, this`threadToBeDestroyed, this`abs, threads.Values
      ensures Valid() && abs == S.Finish(old(abs))
    {
      var _ := SetLevel(S.IntOff);
      threadToBeDestroyed := currentThread;
      abs := abs.(toBeDestroyed := Some(currentThread.id));
      SetFrame(currentThread, S.InFinish);
      Sleep();
    }

    // ----- the code behind SWITCH -----

    /** InterruptEnable, called by ThreadRoot. */
    method Start()
      requires Valid()
      modifies this`cpu, this`level, this`abs, currentThread`frame
      ensures Valid()
      ensures abs == S.SetFrame(old(abs), old(abs).current, S.User).(level := S.IntOn, cpu := S.Executing)
    {
      var _ := SetLevel(S.IntOn);
      BackToUser();
    }

    /** The current thread returns to its own code. */
    method BackToUser()
      requires Valid()
      modifies this`cpu, this`abs, currentThread`frame
      ensures Valid() && abs == S.SetFrame(old(abs), old(abs).current, S.User).(cpu := S.Executing)
    {
      SetFrame(currentThread, S.User);
      SetCpu(S.Executing);
    }

    /** The thread just switched to goes on: at ThreadRoot, or in the rest of Run and then in the
        function that called Run. */
    method Resume()
      requires Valid()
      modifies this`readyList, this`currentThread, this`cpu, this`level, this`threadToBeDestroyed, this`abs
      modifies threads.Values, sems.Values, locks.Values
      ensures Valid() && abs == S.Resume(old(abs))
    {
      var f := currentThread.frame;
      assert f == S.FrameOf(abs, abs.current);
      if f == S.Root {
        Start();
      } else {
        DeleteCarcass();
        if cpu != S.Crashed {
          Continue(f);
        }
      }
    }

    /** What stands behind the call of Run in Yield, P, Acquire and Finish. */
    method Continue(f: S.Frame)
      requires Valid()
      modifies this`readyList, this`currentThread, this`cpu, this`level, this`abs
      modifies threads.Values, sems.Values, locks.Values
      ensures Valid() && abs == S.Continue(old(abs), f)
    {
      match f
      case InYield(saved) =>
        var _ := SetLevel(saved);
        BackToUser();
      case InWait(o, saved) =>
        if o in sems {
          sems[o].WaitLoop(this, saved);
        } else if o in locks {
          locks[o].WaitLoop(this, saved);
        } else {
          SetCpu(S.Crashed);
        }
      case _ =>
        SetCpu(S.Crashed);
    }
  
    // ----- objects -----

    method NewThread(t: Tid)
      requires Valid() && t !in threads
      modifies this`threads, this`abs
      ensures Valid() && abs == old(abs).(threads := old(abs).threads[t := S.Thread(S.JustCreated, S.NotForked)])
      ensures fresh(threads.Values - old(threads.Values))
    {
      var thread := new Thread(t);
      threads := threads[t := thread];
      abs := abs.(threads := abs.threads[t := S.Thread(S.JustCreated, S.NotForked)]);
    }

    method NewSemaphore(o: Oid, initialValue: int)
      requires Valid() && o !in abs.syncs
      modifies this`sems, this`abs
      ensures Valid() && abs == S.SetSync(old(abs), o, S.Sem(initialValue, []))
      ensures fresh(sems.Values - old(sems.Values))
    {
      var sem := new Semaphore(o, initialValue);
      sems := sems[o := sem];
      abs := S.SetSync(abs, o, S.Sem(initialValue, []));
    }

    method NewLock(o: Oid)
      requires Valid() && o !in abs.syncs
      modifies this`locks, this`abs
      ensures Valid() && abs == S.SetSync(old(abs), o, S.Lk(0, []))
      ensures fresh(locks.Values - old(locks.Values))
    {
      var lock := new Lock(o);
      locks := locks[o := lock];
      abs := S.SetSync(abs, o, S.Lk(0, []));
    }

    /** The segment of code behind each action. */
    method Do(a: S.Action)
      requires Valid() && S.Enabled(abs, a)
      modifies this, Objects()
      ensures Valid() && abs == S.Step(old(abs), a)
      ensures fresh(Objects() - old(Objects()))
    {
      if a.Create? || a.NewSem? || a.NewLock? {
        DoNew(a);
      } else {
        DoSegment(a);
      }
    }

    /** The three constructors. */
    method DoNew(a: S.Action)
      requires Valid() && S.Enabled(abs, a) && (a.Create? || a.NewSem? || a.NewLock?)
      modifies this`threads, this`sems, this`locks, this`abs
      ensures Valid() && abs == S.Step(old(abs), a)
      ensures fresh(Objects() - old(Objects()))
    {
      match a
      case Create(t) => NewThread(t);
      case NewSem(o, v) => NewSemaphore(o, v);
      case NewLock(o) => NewLock(o);
    }

    method DoSegment(a: S.Action)
      requires Valid() && S.Enabled(abs, a) && !a.Create? && !a.NewSem? && !a.NewLock?
      modifies this`readyList, this`currentThread, this`cpu, this`level, this`threadToBeDestroyed, this`abs
      modifies threads.Values, sems.Values, locks.Values
      ensures Valid() && abs == S.Step(old(abs), a)
    {
      match a
      case DoFork(t) => Fork(threads[t]);
      case SetLevel(l) => var _ := SetLevel(l);
      case DoYield => Yield();
      case P(o) => sems[o].P(this);
      case V(o) => sems[o].V(this);
      case Acquire(o) => locks[o].Acquire(this);
      case Release(o) => locks[o].Release(this);
      case DoFinish => Finish();
      case HandlerV(o) => sems[o].V(this);
      case IdleTest => SleepTest();
      case DoResume => Resume();
    }

    /** A whole run. */
    method DoAll(run: seq<S.Action>)
      requires Valid() && S.ValidRun(abs, run)
      modifies this, Objects()
      ensures Valid() && abs == S.Final(old(abs), run)
      ensures fresh(Objects() - old(Objects()))
      decreases run
    {
      if run != [] {
        Do(run[0]);
        DoAll(run[1..]);
      }
    }
  }

  /** Initialize, and any run from there. */
  method BootAndRun(main: Tid, run: seq<S.Action>) returns (k: Kernel)
    requires S.ValidRun(S.Boot(main), run)
    ensures fresh(k) && fresh(k.Objects()) && k.Valid() && k.abs == S.Final(S.Boot(main), run)
  {
    k := new Kernel(main);
    k.DoAll(run);
  }

  class Semaphore {
    const id: Oid
    var value: int
    var queue: seq<Tid>

    constructor (id: Oid, initialValue: int)
      ensures this.id == id && value == initialValue && queue == []
    {
      this.id := id;
      value := initialValue;
      queue := [];
    }

    ghost predicate In(k: Kernel)
      reads k, k.threads.Values, k.sems.Values, k.locks.Values
    {
      k.Valid() && id in k.sems && k.sems[id] == this
    }

    method SetValue(k: Kernel, v: int)
      requires In(k)
      modifies this`value, k`abs
      ensures In(k) && k.abs == S.SetSync(old(k.abs), id, S.Sem(v, S.QueueOf(old(k.abs), id)))
    {
      value := v;
      k.abs := S.SetSync(k.abs, id, S.Sem(v, S.QueueOf(k.abs, id)));
    }

    method SetQueue(k: Kernel, q: seq<Tid>)
      requires In(k) && k.AllKnown(q)
      modifies this`queue, k`abs
      ensures In(k) && k.abs == S.SetSync(old(k.abs), id, S.Sem(value, q))
    {
      queue := q;
      k.abs := S.SetSync(k.abs, id, S.Sem(value, q));
      assert k.GlobalsOk() && k.ThreadsOk();
      assert forall o :: o in k.locks ==> k.LockOk(o);
    }

    /** queue->Append. */
    method Append(k: Kernel, t: Thread)
      requires In(k) && k.Known(t)
      modifies this`queue, k`abs
      ensures In(k) && k.abs == S.SetSync(old(k.abs), id, S.Sem(value, S.QueueOf(old(k.abs), id) + [t.id]))
    {
      SetQueue(k, queue + [t.id]);
    }

    /** queue->Remove. */
    method Remove(k: Kernel) returns (t: Thread?)
      requires In(k)
      modifies this`queue, k`abs
      ensures In(k) && (t == null <==> S.QueueOf(old(k.abs), id) == [])
      ensures t == null ==> k.abs == old(k.abs)
      ensures t != null ==> k.Known(t) && t.id == S.QueueOf(old(k.abs), id)[0]
      ensures t != null ==> k.abs == S.SetSync(old(k.abs), id, S.Sem(value, S.QueueOf(old(k.abs), id)[1..]))
    {
      if queue == [] {
        t := null;
      } else {
        t := k.threads[queue[0]];
        SetQueue(k, queue[1..]);
      }
    }

    /** The loop of P, from a test to the return or to the SWITCH in Sleep. */
    method WaitLoop(k: Kernel, oldLevel: S.Level)
      requires In(k)
      modifies this, k`readyList, k`currentThread, k`cpu, k`level, k`abs, k.threads.Values
      ensures In(k) && k.abs == S.WaitLoop(old(k.abs), id, oldLevel)
    {
      if value == 0 {
        Block(k, oldLevel);
      } else {
        Grant(k, oldLevel);
      }
    }

    /** The body of the loop. */
    method Block(k: Kernel, oldLevel: S.Level)
      requires In(k)
      modifies this`queue, k`readyList, k`currentThread, k`cpu, k`abs, k.threads.Values
      ensures In(k) && k.abs == S.Sleep(S.Enqueue(old(k.abs), id, oldLevel))
    {
      k.SetFrame(k.currentThread, S.InWait(id, oldLevel));
      Append(k, k.currentThread);
      k.Sleep();
    }

    /** What stands behind the loop. */
    method Grant(k: Kernel, oldLevel: S.Level)
      requires In(k)
      modifies this`value, k`cpu, k`level, k`abs, k.currentThread`frame
      ensures In(k) && k.abs == S.Grant(old(k.abs), id, oldLevel)
    {
      assert S.Take(k.abs.syncs[id]) == S.Sem(value - 1, S.QueueOf(k.abs, id));
      SetValue(k, value - 1);
      var _ := k.SetLevel(oldLevel);
      k.BackToUser();
    }

    method P(k: Kernel)
      requires In(k)
      modifies this, k`readyList, k`currentThread, k`cpu, k`level, k`abs, k.threads.Values
      ensures In(k) && k.abs == S.Wait(old(k.abs), id)
    {
      var oldLevel := k.SetLevel(S.IntOff);
      WaitLoop(k, oldLevel);
    }

    /** The first waiter, if there is one, gets ready. */
    method WakeFirst(k: Kernel)
      requires In(k)
      modifies this`queue, k`readyList, k`abs, k.threads.Values
      ensures In(k) && k.abs == S.WakeFirst(old(k.abs), id)
    {
      var thread := Remove(k);
      if thread != null {
        k.ReadyToRun(thread);
      }
    }

    method V(k: Kernel)
      requires In(k)
      modifies this, k`readyList, k`level, k`abs, k.threads.Values
      ensures In(k) && k.abs == S.Signal(old(k.abs), id)
    {
      var oldLevel := k.SetLevel(S.IntOff);
      WakeAndPut(k);
      var _ := k.SetLevel(oldLevel);
      S.SignalAtAnyLevel(old(k.abs), id, S.IntOff);
    }

    /** What stands between the two changes of the interrupt level. */
    method WakeAndPut(k: Kernel)
      requires In(k)
      modifies this, k`readyList, k`abs, k.threads.Values
      ensures In(k) && k.abs == S.Signal(old(k.abs), id)
    {
      WakeFirst(k);
      assert S.Put(k.abs.syncs[id]) == S.Sem(value + 1, S.QueueOf(k.abs, id));
      SetValue(k, value + 1);
    }
  }

  class Lock {
    const id: Oid
    var held: int
    var queue: seq<Tid>

    constructor (id: Oid)
      ensures this.id == id && held == 0 && queue == []
    {
      this.id := id;
      held := 0;
      queue := [];
    }

    ghost predicate In(k: Kernel)
      reads k, k.threads.Values, k.sems.Values, k.locks.Values
    {
      k.Valid() && id in k.locks && k.locks[id] == this
    }

    method SetHeld(k: Kernel, h: int)
      requires In(k)
      modifies this`held, k`abs
      ensures In(k) && k.abs == S.SetSync(old(k.abs), id, S.Lk(h, S.QueueOf(old(k.abs), id)))
    {
      held := h;
      k.abs := S.SetSync(k.abs, id, S.Lk(h, S.QueueOf(k.abs, id)));
    }

    method SetQueue(k: Kernel, q: seq<Tid>)
      requires In(k) && k.AllKnown(q)
      modifies this`queue, k`abs
      ensures In(k) && k.abs == S.SetSync(old(k.abs), id, S.Lk(held, q))
    {
      queue := q;
      k.abs := S.SetSync(k.abs, id, S.Lk(held, q));
      assert k.GlobalsOk() && k.ThreadsOk();
      assert forall o :: o in k.sems ==> k.SemOk(o);
    }

    /** queue->Append. */
    method Append(k: Kernel, t: Thread)
      requires In(k) && k.Known(t)
      modifies this`queue, k`abs
      ensures In(k) && k.abs == S.SetSync(old(k.abs), id, S.Lk(held, S.QueueOf(old(k.abs), id) + [t.id]))
    {
      SetQueue(k, queue + [t.id]);
    }

    /** queue->Remove. */
    method Remove(k: Kernel) returns (t: Thread?)
      requires In(k)
      modifies this`queue, k`abs
      ensures In(k) && (t == null <==> S.QueueOf(old(k.abs), id) == [])
      ensures t == null ==> k.abs == old(k.abs)
      ensures t != null ==> k.Known(t) && t.id == S.QueueOf(old(k.abs), id)[0]
      ensures t != null ==> k.abs == S.SetSync(old(k.abs), id, S.Lk(held, S.QueueOf(old(k.abs), id)[1..]))
    {
      if queue == [] {
        t := null;
      } else {
        t := k.threads[queue[0]];
        SetQueue(k, queue[1..]);
      }
    }

    /** The loop of Acquire, from a test to the return or to the SWITCH in Sleep. */
    method WaitLoop(k: Kernel, oldLevel: S.Level)
      requires In(k)
      modifies this, k`readyList, k`currentThread, k`cpu, k`level, k`abs, k.threads.Values
      ensures In(k) && k.abs == S.WaitLoop(old(k.abs), id, oldLevel)
    {
      if held != 0 {
        Block(k, oldLevel);
      } else {
        Grant(k, oldLevel);
      }
    }

    /** The body of the loop. */
    method Block(k: Kernel, oldLevel: S.Level)
      requires In(k)
      modifies this`queue, k`readyList, k`currentThread, k`cpu, k`abs, k.threads.Values
      ensures In(k) && k.abs == S.Sleep(S.Enqueue(old(k.abs), id, oldLevel))
    {
      k.SetFrame(k.currentThread, S.InWait(id, oldLevel));
      Append(k, k.currentThread);
      k.Sleep();
    }

    /** What stands behind the loop. */
    method Grant(k: Kernel, oldLevel: S.Level)
      requires In(k)
      modifies this`held, k`cpu, k`level, k`abs, k.currentThread`frame
      ensures In(k) && k.abs == S.Grant(old(k.abs), id, oldLevel)
    {
      assert S.Take(k.abs.syncs[id]) == S.Lk(1, S.QueueOf(k.abs, id));
      SetHeld(k, 1);
      var _ := k.SetLevel(oldLevel);
      k.BackToUser();
    }

    method Acquire(k: Kernel)
      requires In(k)
      modifies this, k`readyList, k`currentThread, k`cpu, k`level, k`abs, k.threads.Values
      ensures In(k) && k.abs == S.Wait(old(k.abs), id)
    {
      var oldLevel := k.SetLevel(S.IntOff);
      WaitLoop(k, oldLevel);
    }

    /** The first waiter, if there is one, gets ready. */
    method WakeFirst(k: Kernel)
      requires In(k)
      modifies this`queue, k`readyList, k`abs, k.threads.Values
      ensures In(k) && k.abs == S.WakeFirst(old(k.abs), id)
    {
      var thread := Remove(k);
      if thread != null {
        k.ReadyToRun(thread);
      }
    }

    method Release(k: Kernel)
      requires In(k)
      modifies this, k`readyList, k`level, k`abs, k.threads.Values
      ensures In(k) && k.abs == S.Signal(old(k.abs), id)
    {
      var oldLevel := k.SetLevel(S.IntOff);
      WakeAndPut(k);
      var _ := k.SetLevel(oldLevel);
      S.SignalAtAnyLevel(old(k.abs), id, S.IntOff);
    }

    /** What stands between the two changes of the interrupt level. */
    method WakeAndPut(k: Kernel)
      requires In(k)
      modifies this, k`readyList, k`abs, k.threads.Values
      ensures In(k) && k.abs == S.Signal(old(k.abs), id)
    {
      WakeFirst(k);
      assert S.Put(k.abs.syncs[id]) == S.Lk(0, S.QueueOf(k.abs, id));
      SetHeld(k, 0);
    }
  }
}
