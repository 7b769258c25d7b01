# Verified model of the threads kernel

A Dafny model of a uniprocessor threads kernel (the Nachos threads assignment): FIFO scheduler,
thread life cycle, semaphores and locks with Mesa-style wake-up, the linked list behind every queue,
the synchronized list, and the i386 context switch. `dafny verify dfyconfig.toml` checks everything.

## The kernel as a state machine

`KernelSpec.dfy` is the kernel on values: threads with status and stack frame, the current thread,
`threadToBeDestroyed`, the ready list, the interrupt level, any number of semaphores and locks. A
step is the code between two points at which the CPU can pass to another thread. `P` and `Acquire`
are split at `Sleep`: the loop test is one segment, and a woken thread runs it again (`WaitLoop`)
when it is switched to. The loop of `Sleep` is a state of its own (`Idling`), in which the blocked
thread is still the current one and an interrupt handler may call `V`. Every failed ASSERT, a
destructor called twice, and a return into code marked as not reached lead to `Crashed`.

`KernelObjects.dfy` has the same segments as methods of classes that update `status`, `value`,
`held`, the queues and the globals in place. Each method is proved to change the abstract state as the
function of `KernelSpec.dfy` does. `Kernel.Do` collects them, `Kernel.DoAll` executes a whole run on
the objects, and `BootAndRun` does so from the constructor on: the objects end in the state `Final` of
the run, which is what the theorems about runs are about. Queues hold addresses, as the `void *` items
of the list class do.

Runs are arbitrary sequences of enabled actions: any thread code, timer-forced yields, handlers.
`Enabled` asks no more than the code does: fork a thread once, give a semaphore a non-negative value,
use objects that exist. Who calls `Release` is not restricted there; the convention of synch.h is a
separate predicate, and the theorems that need it say so.

* `KernelInvariant.dfy`: the invariant and its preservation by every segment.
* `KernelEffects.dfy`: what one step does to each thread's frame, to each semaphore and lock, to the
  CPU and the ready list, and which objects there are after it.
* `StepLaws.dfy`: these laws together with those on levels and destruction leave one next state only.
* `History.dfy`: which actions are possible in a reachable state, told from the run before it.
* `WakeUp.dfy`: no lost wake-up, an idle machine is stuck, conservation of semaphore values, and exactly
  when a woken thread gets what it waited for.
* `Lifecycle.dfy`: one place per thread, no crash, deferred destruction, exact reclamation, the leak.
* `Levels.dfy`: the interrupt level is private to each thread.
* `Dispatch.dfy`: FIFO laws of the ready list and of the wait queues, the idle loop, when and how
  `Yield` rotates.
* `LockProtocol.dfy`: mutual exclusion with its exact condition, refinement of a binary semaphore.
* `SynchListRuns.dfy`: concurrent `SynchList` calls on top of this kernel: their order, what each call
  does, and where the program stops. `SynchListScenario.dfy` has a run in which two calls overlap.

## The context switch

`ContextSwitch.dfy` has a class with the i386 registers and memory whose methods execute `SWITCH`,
`ThreadRoot` and `StackAllocate` instruction by instruction. swtch.s and the i386 part of switch.s
are the same routine; the constants are the offsets of switch.h. `ContextRuns.dfy` proves isolation
over all runs, in which the running thread's code may do anything but write the thread object or live
stack of a suspended thread. `ThreadStart.dfy` proves what a forked thread does first, and what
`ThreadRoot` would do if its last call returned.

## The list

`LinkedList.dfy` has list elements on the heap and the list operations, proved against a sequence of
(item, key) pairs. `SortedQueue.dfy` proves that the sorted operations are a stable priority queue.

## Where the code and its comments differ

* The comment in `V` says that the woken thread consumes the V immediately. The code increments the
  value, and any thread may take it first. `WokenGetsValue` says exactly when the woken thread gets it,
  `NewcomerTakesValue` is a run from the start in which it does not, and `TooLateWaitsAgain` says what
  it does then.
* synch.h asks that only the thread that acquired a lock releases it. The code stores no owner;
  `MutualExclusion` says exactly which releases break exclusion, `StrangerBreaksExclusion` is a run
  after which two threads hold one lock.
* The comments in thread.cc say that Run destroys a finished thread once a different thread runs. A
  thread that starts at ThreadRoot does not; `ExactReclamation` says exactly who is destroyed, and
  `LeakIsReachable` is a run after which a finished thread is never destroyed.
* The comment on ThreadRoot in switch.s names eax for the start-up function. The code calls through ecx,
  which is where StackAllocate puts it.
* The comment on SWITCH in switch.s says that eax is pushed on the stack. The code keeps it in `_eax_save`.
* The destructor of the list is said to delete all elements. It stops behind the first NULL item
  (`List.Destroy`).

## Model

| member | source | states |
|---|---|---|
| WakeUp.NoWakeUpIsLost | synch.cc:64-98 | in every reachable state, a semaphore with waiters has a value covered by woken threads, a free lock with waiters has a woken thread, and each woken thread is ready or just switched to |
| WakeUp.IdleIsStuck | thread.cc:221-223 | when Sleep finds the ready list empty, every semaphore with waiters is 0, every lock with waiters is held, and every thread is unforked, finished or queued on such an object |
| WakeUp.HandlerUnsticks | thread.cc:221-225 | from a stuck machine, V from a handler and the next test of the loop dispatch the longest waiter, also when it is the thread inside Sleep, and it returns from its P; without a waiter the machine stays idle |
| WakeUp.OnlyHandlersUnstick | thread.cc:221-223 | from a stuck machine on, every state of a run has the same threads, CPU and empty ready list, if and only if the run has no V from a handler on a semaphore that has waiters |
| WakeUp.WokenGetsValue | synch.cc:69-96 | in any run up to its turn, a thread woken on a semaphore returns from P if and only if the value and the Vs since then outnumber the Ps that returned |
| WakeUp.WokenGetsLock | synch.cc:117-137 | a thread woken on a lock returns from Acquire at its turn if and only if no Acquire returned since the last Release |
| WakeUp.NewcomerTakesValue | synch.cc:93-96 | a run from the start in which the thread that called V takes the value again with P, and the woken thread does not return at its turn |
| WakeUp.TooLateWaitsAgain | synch.cc:69-72 | a woken thread that finds the object taken queues again at the end |
| WakeUp.StepValue | synch.cc:64-98 | no step but V on a semaphore and a returning P on it changes its value, each by one |
| WakeUp.SemaphoreConservation | synch.cc:64-98 | in every run the value is what it was plus Vs minus returned Ps, and never negative |
| WakeUp.ConservationFromCreation | synch.cc:36-41 | from the constructor on, the value is the initial value plus Vs minus returned Ps |
| KernelInvariant.StepInv | scheduler.cc:53-135 | every segment keeps the invariant on threads, lists, statuses and the CPU |
| KernelInvariant.RunInv | system.cc:139-147 | the invariant holds in every state of every run |
| KernelEffects.StepFrame | thread.cc:174-226 | a step changes the stack frame of nobody but the current thread, a forked one, and one the destructor reaches |
| KernelEffects.StepSync | synch.cc:64-139 | a step changes an object only by a test of its loop, which takes it or queues its caller, or by a signal; the test lets its caller go on exactly when it takes the object |
| KernelEffects.StepScheduled | thread.cc:221-225 | a thread that blocks, finishes, yields or idles hands the CPU to the first ready thread, whoever it is, and the CPU idles only when nobody is ready; any other step keeps the CPU and only adds to the ready list |
| KernelEffects.StepExists | thread.cc:35-44 | a step adds the thread, semaphore or lock it constructs, as its constructor leaves it, and no step removes one |
| StepLaws.LawsDetermineStep | scheduler.cc:53-135 | a state satisfies the laws on frames, objects, schedule, levels, destruction and the invariant if and only if it is the next state of the kernel |
| History.AllowedByHistory | thread.cc:87-99 | in every reachable state exactly those actions are possible that the history allows: create and fork once, use what was made, and any call by a thread in its own code |
| History.ForkableUntilForked | thread.cc:35-44 | in every run a thread waits to be forked exactly from its creation to its Fork |
| Lifecycle.OnePlaceEach | scheduler.cc:53-106 | every thread is in exactly one place: the CPU, one position of one list, not forked, or finished; its status is the one of that place |
| Lifecycle.NothingCrashes | thread.cc:58-65 | no ASSERT fails, no thread is destroyed twice, no code marked as not reached is entered, and no list or CPU holds a finished thread |
| Lifecycle.CrashesExactly | thread.cc:58-65 | in any state, reachable or not, the program stops exactly behind a SWITCH to a thread suspended in Run, when the destructor would hit the running thread or a destroyed one, when the thread has no frame to go on with, or when it must sleep with interrupts on |
| Lifecycle.FinishIsFinal | thread.cc:143-154 | a finished thread never runs again, and is destroyed once in exactly the runs at whose end it is destroyed, otherwise never |
| Lifecycle.ExactReclamation | scheduler.cc:116-127 | the last finished thread is destroyed if and only if a thread suspended in Run is dispatched before the next Finish |
| Lifecycle.OverwrittenLeaks | thread.cc:151-152 | a finished thread that threadToBeDestroyed no longer names is never destroyed |
| Lifecycle.PromptFinish | thread.cc:143-154 | a thread that finishes while an unstarted thread is next leaves that thread in its own code, itself finished and not destroyed |
| Lifecycle.PromptFinishLeaks | thread.cc:286-290 | if that next thread finishes in its first slice, the first one is never destroyed, in every continuation |
| Lifecycle.LeakIsReachable | thread.cc:286-290 | a run from the start after which a finished thread is not destroyed, nothing names it, and no continuation destroys it |
| Lifecycle.PendingOnlyInFirstSlice | scheduler.cc:116-127 | while a thread runs its own code, or idles inside its own P or Acquire, threadToBeDestroyed is set only in its first time slice |
| Levels.StepLevel | thread.cc:174-190 | in each step but its own Finish a thread gets the interrupt level it sets, and otherwise keeps its own |
| Levels.LevelIsPrivate | synch.cc:67-76 | in its own code a thread sees the level it set itself last, or had before, whatever it called and others did; a forked thread starts with interrupts on |
| Levels.SwitchesAreMasked | scheduler.cc:116-116 | every SWITCH and idle pass happens with interrupts off; a thread that starts at ThreadRoot gets them on |
| Dispatch.ReadyListIsFifo | scheduler.cc:53-74 | in every run, the old ready list followed by the threads made ready equals the threads dispatched followed by the new ready list |
| Dispatch.DispatchBound | scheduler.cc:70-74 | the thread at index k is the (k+1)-th dispatched, and moves up one place per dispatch until then |
| Dispatch.IdlesOnlyWithoutWork | thread.cc:221-225 | in every reachable state in which the CPU idles, the ready threads are exactly those that handlers woke since the last test of the loop, and the next test dispatches the first of them |
| Dispatch.WaitQueueIsFifo | synch.cc:93-95 | the same law for the queue of every semaphore and lock |
| Dispatch.RoundRotates | thread.cc:174-190 | after a Yield the next thread is in its own code if and only if it was not waiting or its object is free, and then the running thread and the ready list have rotated by one |
| Dispatch.YieldsRotate | thread.cc:174-190 | k Yields rotate the running thread and the ready list left by k, if in each round the dispatched thread comes back to its own code |
| Dispatch.YieldsRestore | thread.cc:174-190 | under the same condition one Yield per thread restores the order |
| LockProtocol.StepExclusive | synch.cc:114-139 | a step keeps at most one holder and held telling the truth if and only if it is no Release by a stranger while others hold the lock |
| LockProtocol.MutualExclusion | synch.cc:114-139 | the same for whole runs, as an if and only if |
| LockProtocol.AtMostOneHolder | synch.h:64-66 | from a new lock on, two threads between Acquire and Release are one thread, and the lock is held |
| LockProtocol.StrangerBreaksExclusion | synch.cc:128-139 | a run from the start, with a Release by a thread that did not acquire the lock, after which two threads hold it |
| LockProtocol.StepRefines | synch.cc:64-139 | each step of the kernel with locks is the step of the kernel with semaphores, a Release exactly when the lock is held |
| LockProtocol.LockRefinesSemaphore | synch.cc:64-139 | runs with locks map step by step to runs with semaphores initialised to 1, value 1 - held and equal queues, if and only if every Release finds its lock held |
| LockProtocol.ConventionRefines | synch.h:64-66 | every system that keeps the convention for all its locks refines the system with semaphores |
| SynchListRuns.SynchListIsFifo | synchlist.cc:53-82 | in every concurrent run the items that Remove returned, one per call, are in order the front of the arguments of the calls of Append that returned; with the lock free the list is the rest |
| SynchListRuns.StopsInWait | synchlist.cc:76-77 | the program stops in Wait if and only if the last event was a test of IsEmpty with everything appended removed |
| SynchListRuns.StopsOnNull | synchlist.cc:78-79 | it stops in ASSERT(item != NULL) if and only if the last event was the removal of an item appended as NULL |
| SynchListRuns.AppendReturns | synchlist.cc:56-59 | a call of Append that has the lock puts its item at the end, releases the lock and returns |
| SynchListRuns.FreeAppend | synchlist.cc:53-60 | the same for a whole call that finds the lock free |
| SynchListRuns.RemoveReturns | synchlist.cc:75-82 | a call of Remove that has the lock and finds an item takes the first one, releases the lock and returns it |
| SynchListRuns.RemoveHalts | synchlist.cc:76-79 | with an empty list or a NULL item it stops the program |
| SynchListScenario.OverlappingCalls | synchlist.cc:53-82 | a run from the start in which a preempted Append makes a Remove wait for the lock, and the Remove then returns the item |
| SynchListRuns.ItemIsNeverNull | synchlist.cc:79-79 | in every run from a new list to which no NULL is appended, ASSERT(item != NULL) does not fail |
| SynchListRuns.OneInside | synchlist.cc:56-59 | in every run from a new list, two threads past Acquire in the list's code are one thread |
| SynchList.SynchList.Append | synchlist.cc:57-58 | with the lock held, the item joins the end of the list on the heap, in a new element |
| SynchList.SynchList.Remove | synchlist.cc:76-79 | with the lock held, an empty list waits, else the first item leaves the list, and a NULL item aborts |
| KernelObjects.Kernel.ReadyToRun | scheduler.cc:53-60 | sets the status READY and appends to the ready list |
| KernelObjects.Kernel.FindNextToRun | scheduler.cc:70-74 | removes and returns the first ready thread, NULL if there is none |
| KernelObjects.Kernel.Run | scheduler.cc:90-116 | makes the thread current and RUNNING, up to SWITCH |
| KernelObjects.Kernel.DeleteCarcass | scheduler.cc:124-127 | destroys threadToBeDestroyed with the destructor's ASSERT |
| KernelObjects.Kernel.SleepTest | thread.cc:222-225 | one test of the idle loop, and the dispatch behind it |
| KernelObjects.Kernel.Sleep | thread.cc:211-226 | blocks the current thread and dispatches the next one or idles |
| KernelObjects.Kernel.Yield | thread.cc:174-190 | returns at once without a ready thread, else queues the caller and dispatches the first one |
| KernelObjects.Kernel.Fork | thread.cc:87-99 | forges the frame and makes the thread ready |
| KernelObjects.Kernel.Finish | thread.cc:143-154 | marks the current thread for destruction and sleeps with interrupts off |
| KernelObjects.Kernel.Resume | scheduler.cc:116-135 | the code behind SWITCH up to the next switch or the thread's own code |
| KernelObjects.Kernel.constructor | system.cc:139-147 | the state in which Initialize leaves the kernel, with a new thread object and no semaphores or locks |
| KernelObjects.Kernel.Do | scheduler.cc:90-135 | every action runs its segment and does exactly one step of the state machine; objects that join the kernel are new |
| KernelObjects.Kernel.DoAll | scheduler.cc:90-135 | executing a run on the objects leaves them in the final state of the run of the state machine |
| KernelObjects.BootAndRun | system.cc:139-147 | the same from the constructor on |
| KernelObjects.Semaphore.P | synch.cc:64-77 | the first segment of P |
| KernelObjects.Semaphore.WaitLoop | synch.cc:69-76 | a test of the loop of P and what follows it |
| KernelObjects.Semaphore.V | synch.cc:87-98 | wakes the first waiter, if any, and increments the value |
| KernelObjects.Lock.Acquire | synch.cc:114-127 | the first segment of Acquire |
| KernelObjects.Lock.WaitLoop | synch.cc:117-124 | a test of the loop of Acquire and what follows it |
| KernelObjects.Lock.Release | synch.cc:128-139 | wakes the first waiter, if any, and frees the lock |
| ContextSwitch.Machine.SWITCH | swtch.s:16-43 | the instructions compute the transfer that ContextRuns is about |
| ContextSwitch.Machine.StackAllocate | thread.cc:259-291 | the words written for a new thread |
| ContextSwitch.Machine.ThreadRoot | swtch.s:4-13 | the instructions make the calls in order, with their return addresses and the word in the place of their argument, and leave the machine and the return address that ThreadStart is about |
| ContextRuns.StartInv | system.cc:144-145 | before the first Fork, with the main thread alone, nothing is to be kept |
| ContextRuns.SwitchResumes | switch.s:333-363 | SWITCH gives the target its registers, return address and live stack; it changes only the nine saved words of the caller's thread object and the dead argument slot |
| ContextRuns.StepInv | swtch.s:16-43 | no event disturbs the saved registers or the live stack of a suspended thread |
| ContextRuns.ContextIsolation | switch.s:333-363 | over any run, the first switch back to a thread returns from its own call with all registers and its stack as at the call |
| ContextRuns.SwitchToSelf | swtch.s:16-43 | SWITCH(t, t) keeps all registers and returns to the caller |
| ContextRuns.NoWrap | switch.h:130-139 | no address SWITCH forms leaves the 32-bit range |
| ContextRuns.ForgedFrame | thread.cc:274-290 | the forged stack and thread object are those of a thread that entered SWITCH with ThreadRoot as return address |
| ContextRuns.ForgeWrites | thread.cc:259-291 | StackAllocate changes two words of the new stack and six of the thread object |
| ThreadStart.CanCallSwitch | switch.s:319-324 | a running thread with room on its stack can call SWITCH to any suspended or new thread |
| ThreadStart.RootCallsInOrder | switch.s:304-310 | ThreadRoot calls the start-up code, the function on its argument, then the finishing code, each with the return address behind its own call |
| ThreadStart.RootReturns | switch.s:304-315 | if the three calls return, ThreadRoot restores ebx, esi, edi and ebp, pops its return address and jumps to it |
| ThreadStart.RootWrites | switch.s:304-315 | ThreadRoot itself writes three words below the stack pointer it was entered with |
| ThreadStart.RootWouldRunAgain | switch.s:312-315 | for a forked thread, after any run, that address is ThreadRoot itself, so the code that finishes a thread must not return |
| ThreadStart.ForkBootstrap | thread.cc:259-291 | the first switch to a forked thread, after any run, enters ThreadRoot, which enables interrupts, calls func(arg) and finishes the thread, each call returning behind itself |
| LinkedList.List.IsEmpty | list.cc:154-161 | true exactly on the empty list |
| LinkedList.List.Append | list.cc:76-88 | adds the item at the end with key 0 |
| LinkedList.List.Prepend | list.cc:102-114 | adds the item at the front with key 0 |
| LinkedList.List.SortedInsert | list.cc:178-202 | inserts before the first greater key, on any list |
| LinkedList.List.SortedRemove | list.cc:217-237 | removes, frees and returns the first element and its key, NULL on the empty list |
| LinkedList.List.Remove | list.cc:124-128 | the same without the key |
| LinkedList.List.Destroy | list.cc:58-62 | terminates, keeps what follows the first NULL item, and frees everything if and only if only the last item may be NULL |
| ListSpec.BehindFirstNull | list.cc:58-62 | what is kept is what stands behind the first NULL item |
| SortedQueue.StableSortIsUnique | list.cc:178-202 | there is one stable sort of a sequence of insertions |
| SortedQueue.InsertIsStable | list.cc:192-200 | insertion into a sorted list puts an item behind those with its key and keeps all others in order |
| SortedQueue.HeadIsLeast | list.cc:217-231 | the head of the stable sort is the earliest of the least entries, and removing it leaves the stable sort of the rest |
| SortedQueue.PriorityQueue | list.cc:178-237 | any interleaving of insertions and removals returns a least entry, earliest among equals, and leaves the stable sort of what remains |
| SortedQueue.DrainReturnsAll | list.cc:217-237 | draining returns the list from first to last |

## Left out

- The queues inside the kernel are sequences of addresses, the proved abstraction of the list class, not heap lists; the sharing of list elements between queues is not modelled there.
- Addresses of destroyed threads and objects are not reused, and semaphores and locks are never deleted.
- The classes Interrupt, Timer, Statistics and Machine of the simulator are not part of this model: an interrupt level, a Yield at any time, and V from a handler stand for them. Idle may return at any time; that it stops the simulation when nothing is pending is not modelled.
- Fairness and freedom from starvation: the code guarantees neither.
- Condition: Wait is an abort, Signal and Broadcast do nothing.
- CheckOverflow: the stack fence post is written, but stack overflow is not modelled.
- ASSERT(this == currentThread): Yield, Sleep and Finish are called on the current thread only, as all code of the kernel does.
- Lock::isHeldByCurrentThread has no definition; the destructors of semaphores and locks, debug names, printing, Mapcar and command line handling are plumbing.
- The list calls inside SynchList are single steps of the concurrent model; the list itself is verified on the heap in SynchList.dfy and LinkedList.dfy.
- Registers and memory hold unbounded numbers; ContextRuns.NoWrap shows that the layout keeps the address arithmetic of SWITCH in range. The pushes and calls of thread code outside SWITCH are not bounded.
- The other processors (MIPS, SPARC, HP-PA), user programs, file system and network.
