/** SWITCH is a coroutine transfer over any run, among any number of threads. */
module ContextRuns {
  import opened ContextSwitch

  type Tid = nat

  /** Where a thread lives: its thread object and its stack [lo, hi). */
  datatype Home = Home(block: Word, lo: Word, hi: int)

  const BLOCK_SIZE := 4 * 19

  predicate InBlock(h: Home, a: int) { h.block <= a < h.block + BLOCK_SIZE }
  predicate InStack(h: Home, a: int) { h.lo <= a < h.hi }
  predicate Owns(h: Home, a: int) { InBlock(h, a) || InStack(h, a) }

  predicate Fits(h: Home) {
    && 0 <= h.block && h.block + BLOCK_SIZE <= WORDS && 0 <= h.lo <= h.hi <= WORDS
    && h.block % 4 == 0 && h.lo % 4 == 0 && h.hi % 4 == 0
  }

  predicate BlockApart(h: Home) {
    h.block + BLOCK_SIZE <= h.lo || h.hi <= h.block
  }

  predicate Apart(g: Home, h: Home) {
    && (g.block + BLOCK_SIZE <= h.block || h.block + BLOCK_SIZE <= g.block)
    && (g.hi <= h.lo || h.hi <= g.lo)
    && (g.block + BLOCK_SIZE <= h.lo || h.hi <= g.block)
    && (h.block + BLOCK_SIZE <= g.lo || g.hi <= h.block)
  }

  /** Every thread object and stack lies in memory, and no two of them overlap. */
  ghost predicate Layout(homes: map<Tid, Home>) {
    && (forall t :: t in homes ==> Fits(homes[t]))
    && (forall t :: t in homes ==> BlockApart(homes[t]))
    && (forall t, u :: t in homes && u in homes && t != u ==> Apart(homes[t], homes[u]))
  }

  /** The machine, the running thread, and for every suspended thread the machine as it was when
      that thread entered SWITCH. */
  datatype Sys = Sys(m: Mach, current: Tid, saved: map<Tid, Mach>)

  /** The state SWITCH must keep for a thread that entered it with machine c: the thread object
      holds the registers and the return address, and the live stack is as it was. */
  ghost predicate Kept(m: Memory, h: Home, c: Mach) {
    && h.lo <= c.regs.esp && c.regs.esp + 8 <= h.hi
    && Saved(m, h.block) == c.regs
    && Get(m, At(h.block, PC)) == Get(c.mem, c.regs.esp)
    && forall a: Word :: c.regs.esp <= a < h.hi ==> Get(m, a) == Get(c.mem, a)
  }

  ghost predicate Inv(s: Sys, homes: map<Tid, Home>) {
    && Layout(homes) && s.current in homes && s.current !in s.saved
    && forall t :: t in s.saved ==> t in homes && Kept(s.m.mem, homes[t], s.saved[t])
  }

  datatype Event =
    | Own(m: Mach)        // the running thread's own code leaves this machine
    | SwitchTo(t: Tid)    // the running thread enters SWITCH(current, t)
    | Prepare(t: Tid, home: Home, code: Code, arg: Word)  // StackAllocate for a new thread t

  /** The addresses StackAllocate puts into a new thread. */
  datatype Code = Code(root: Word, enable: Word, func: Word, finish: Word)

  /** Code of the running thread may do what it likes to registers and memory, except write to the
      thread object or the live stack of a suspended thread. A call of SWITCH has the return
      address and both thread objects on the caller's stack. */
  ghost predicate Allowed(s: Sys, e: Event, homes: map<Tid, Home>)
    requires s.current in homes
  {
    match e
    case Own(m) =>
      forall t, a: Word :: t in s.saved && t in homes
          && (InBlock(homes[t], a) || s.saved[t].regs.esp <= a < homes[t].hi)
        ==> Get(m.mem, a) == Get(s.m.mem, a)
    case Prepare(t, home, code, arg) =>
      && t in homes && home == homes[t] && home.hi == home.lo + 4 * STACK_SIZE
      && t != s.current && t !in s.saved
    case SwitchTo(t) =>
      && (t in s.saved || t == s.current) && t in homes
      && s.m.regs.esp % 4 == 0 && CallsSwitch(s.m, homes[s.current], homes[t].block)
  }

  function ForgeFor(m: Memory, h: Home, code: Code, arg: Word): Memory {
    Forge(m, h.block, h.lo, code.root, code.enable, code.func, arg, code.finish)
  }

  /** A new thread looks as if it had entered SWITCH with the registers in its thread object. */
  function Forged(m: Memory, h: Home): Mach {
    Mach(Saved(m, h.block), m, 0)
  }

  function Next(s: Sys, e: Event): Sys {
    match e
    case Own(m) => s.(m := m)
    case Prepare(t, home, code, arg) =>
      var mem := ForgeFor(s.m.mem, home, code, arg);
      s.(m := s.m.(mem := mem), saved := s.saved[t := Forged(mem, home)])
    case SwitchTo(t) => Sys(Switch(s.m).0, t, s.saved[s.current := s.m] - {t})
  }

  /** Before the first Fork there is only the main thread, on any stack. */
  lemma StartInv(m: Mach, main: Tid, homes: map<Tid, Home>)
    requires Layout(homes) && main in homes
    ensures Inv(Sys(m, main, map[]), homes)
  {}

  // ----- one SWITCH -----

  /** A call frame of SWITCH on the caller's own stack. */
  predicate CallsSwitch(m: Mach, h: Home, target: Word) {
    && h.lo <= m.regs.esp && m.regs.esp + 12 <= h.hi
    && Get(m.mem, At(m.regs.esp, 4)) == h.block && Get(m.mem, At(m.regs.esp, 8)) == target
  }

  lemma SaveCallerOutside(m: Mach, h: Home, target: Word, a: Word)
    requires Fits(h) && CallsSwitch(m, h, target) && !IsSavedWord(h, a)
    ensures Get(SaveCaller(m), a) == Get(m.mem, a)
  {}

  lemma SaveCallerInside(m: Mach, h: Home, target: Word)
    requires Fits(h) && CallsSwitch(m, h, target) && !InBlock(h, m.regs.esp)
    ensures Saved(SaveCaller(m), h.block) == m.regs
    ensures Get(SaveCaller(m), At(h.block, PC)) == Get(m.mem, m.regs.esp)
  {
    SaveRegsInside(m.mem, h, m.regs);
    SaveRegsOutside(m.mem, h, m.regs, m.regs.esp);
  }

  lemma SaveRegsInside(m: Memory, h: Home, r: Regs)
    requires Fits(h)
    ensures Saved(SaveRegs(m, h.block, r), h.block) == r
  {}

  lemma SaveRegsOutside(m: Memory, h: Home, r: Regs, a: Word)
    requires Fits(h) && !InBlock(h, a)
    ensures Get(SaveRegs(m, h.block, r), a) == Get(m, a)
  {}

  /** A memory that agrees on a suspended thread's object and live stack keeps the thread. */
  lemma Undisturbed(m: Memory, m': Memory, h: Home, c: Mach)
    requires Fits(h) && Kept(m, h, c)
    requires forall a: Word :: InBlock(h, a) || c.regs.esp <= a < h.hi ==> Get(m', a) == Get(m, a)
    ensures Kept(m', h, c)
  {}

  /** The first half keeps the caller. */
  lemma SaveKeepsCaller(m: Mach, h: Home, target: Word)
    requires Fits(h) && BlockApart(h) && CallsSwitch(m, h, target)
    ensures Kept(SaveCaller(m), h, m)
    ensures Get(SaveCaller(m), At(m.regs.esp, 8)) == target
  {
    SaveCallerInside(m, h, target);
    forall a: Word | m.regs.esp <= a < h.hi ensures Get(SaveCaller(m), a) == Get(m.mem, a) {
      SaveCallerOutside(m, h, target, a);
    }
    assert At(m.regs.esp, 8) == m.regs.esp + 8;
  }

  /** It keeps every other suspended thread. */
  lemma SaveKeepsOther(m: Mach, h: Home, target: Word, g: Home, c: Mach)
    requires Fits(h) && Fits(g) && Apart(g, h) && CallsSwitch(m, h, target) && Kept(m.mem, g, c)
    ensures Kept(SaveCaller(m), g, c)
  {
    forall a: Word | InBlock(g, a) || c.regs.esp <= a < g.hi ensures Get(SaveCaller(m), a) == Get(m.mem, a) {
      SaveCallerOutside(m, h, target, a);
    }
    Undisturbed(m.mem, SaveCaller(m), g, c);
  }

  /** The words of a thread object in which SWITCH saves its caller. */
  predicate IsSavedWord(h: Home, a: int) {
    a - h.block in {ESP, EAX, EBX, ECX, EDX, EBP, ESI, EDI, PC}
  }

  /** What SWITCH to t does: t finds the registers, the return address and the live stack it had
      when it entered SWITCH, its stack pointer just past the return address; the one word of its
      stack that differs is the dead argument slot, which holds the return address now. Nothing else changes but the nine saved
      words in the thread object of the caller. */
  ghost predicate Resumes(before: Mach, caller: Home, h: Home, c: Mach) {
    var esp := c.regs.esp;
    var (m, pc) := Switch(before);
    && esp + 4 < h.hi <= WORDS
    && m.regs == c.regs.(esp := esp + 4) && m.eaxSave == c.regs.eax
    && pc == Get(c.mem, esp) && Get(m.mem, esp + 4) == pc
    && (forall a: Word :: esp <= a < h.hi && a != esp + 4 ==> Get(m.mem, a) == Get(c.mem, a))
    && (forall a: Word :: !IsSavedWord(caller, a) && a != esp + 4 ==> Get(m.mem, a) == Get(before.mem, a))
  }

  /** The second half of SWITCH, for a target whose state is kept. */
  lemma LoadResumes(mem: Memory, esp: Word, h: Home, c: Mach)
    requires Fits(h) && Kept(mem, h, c) && Get(mem, At(esp, 8)) == h.block
    ensures var (m, pc) := LoadTarget(mem, esp);
      && m.regs == c.regs.(esp := c.regs.esp + 4) && m.eaxSave == c.regs.eax
      && pc == Get(c.mem, c.regs.esp) && Get(m.mem, c.regs.esp + 4) == pc
      && forall a: Word :: a != c.regs.esp + 4 ==> Get(m.mem, a) == Get(mem, a)
  {
    assert Saved(mem, h.block) == c.regs;
    assert At(c.regs.esp, 4) == c.regs.esp + 4;
  }

  /** Both halves, for the thread h that calls and the thread k it switches to. */
  lemma SwitchResumes(m: Mach, h: Home, k: Home, c: Mach)
    requires Fits(h) && Fits(k) && BlockApart(h) && BlockApart(k) && CallsSwitch(m, h, k.block)
    requires Kept(SaveCaller(m), k, c)
    ensures Resumes(m, h, k, c)
  {
    SaveKeepsCaller(m, h, k.block);
    LoadResumes(SaveCaller(m), m.regs.esp, k, c);
    forall a: Word | !IsSavedWord(h, a) ensures Get(SaveCaller(m), a) == Get(m.mem, a) {
      SaveCallerOutside(m, h, k.block, a);
    }
  }

  /** A suspended thread other than the target stays kept through the second half. */
  lemma SwitchKeeps(m: Mach, h: Home, k: Home, c: Mach, g: Home, d: Mach)
    requires Fits(h) && Fits(k) && Fits(g) && BlockApart(h) && CallsSwitch(m, h, k.block)
    requires Kept(SaveCaller(m), k, c) && Kept(SaveCaller(m), g, d) && Apart(g, k)
    ensures Kept(Switch(m).0.mem, g, d)
  {
    SaveKeepsCaller(m, h, k.block);
    LoadResumes(SaveCaller(m), m.regs.esp, k, c);
    Undisturbed(SaveCaller(m), Switch(m).0.mem, g, d);
  }

  /** The target of a SWITCH is kept by its first half, be it the caller itself. */
  lemma TargetKept(s: Sys, t: Tid, homes: map<Tid, Home>)
    requires Inv(s, homes) && Allowed(s, SwitchTo(t), homes)
    ensures Kept(SaveCaller(s.m), homes[t], if t == s.current then s.m else s.saved[t])
  {
    SaveKeepsCaller(s.m, homes[s.current], homes[t].block);
    if t != s.current {
      assert Apart(homes[t], homes[s.current]);
      SaveKeepsOther(s.m, homes[s.current], homes[t].block, homes[t], s.saved[t]);
    }
  }

  lemma SwitchInv(s: Sys, t: Tid, homes: map<Tid, Home>)
    requires Inv(s, homes) && Allowed(s, SwitchTo(t), homes)
    ensures Inv(Next(s, SwitchTo(t)), homes)
  {
    var s' := Next(s, SwitchTo(t));
    TargetKept(s, t, homes);
    forall u | u in s'.saved ensures u in homes && Kept(s'.m.mem, homes[u], s'.saved[u]) {
      OtherKept(s, t, homes, u);
    }
  }

  lemma OtherKept(s: Sys, t: Tid, homes: map<Tid, Home>, u: Tid)
    requires Inv(s, homes) && Allowed(s, SwitchTo(t), homes) && u != t && (u in s.saved || u == s.current)
    ensures u in homes && Kept(Switch(s.m).0.mem, homes[u], if u == s.current then s.m else s.saved[u])
  {
    var h, k, g := homes[s.current], homes[t], homes[u];
    var c := if t == s.current then s.m else s.saved[t];
    var d := if u == s.current then s.m else s.saved[u];
    TargetKept(s, t, homes);
    assert Apart(g, k);
    if u == s.current {
      SaveKeepsCaller(s.m, h, k.block);
    } else {
      assert Apart(g, h);
      SaveKeepsOther(s.m, h, k.block, g, d);
    }
    SwitchKeeps(s.m, h, k, c, g, d);
  }

  /** The forged frame: the stack top holds ThreadRoot's address, below the word that SWITCH will
      use as argument slot, and the thread object holds what ThreadRoot expects in its registers. */
  lemma ForgedFrame(m: Memory, h: Home, code: Code, arg: Word)
    requires Fits(h) && BlockApart(h) && h.hi == h.lo + 4 * STACK_SIZE
    ensures var mem := ForgeFor(m, h, code, arg);
      && Kept(mem, h, Forged(mem, h))
      && var r := Forged(mem, h).regs;
      && r.esp == h.hi - 20 && r.ecx == code.enable && r.esi == code.func && r.edx == arg && r.edi == code.finish
      && Get(mem, r.esp) == code.root && Get(mem, h.lo) == STACK_FENCEPOST
  {}

  /** StackAllocate writes two words of the new stack and six of the thread object. */
  lemma ForgeWrites(m: Memory, h: Home, code: Code, arg: Word, a: Word)
    requires Fits(h) && h.hi == h.lo + 4 * STACK_SIZE
    requires a !in {h.lo, h.hi - 20}
    requires a - h.block !in {ESP, PC, ECX, ESI, EDX, EDI}
    ensures Get(ForgeFor(m, h, code, arg), a) == Get(m, a)
  {}

  lemma ForgeKeepsOther(m: Memory, h: Home, code: Code, arg: Word, g: Home, c: Mach)
    requires Fits(h) && h.hi == h.lo + 4 * STACK_SIZE && Fits(g) && Apart(g, h) && Kept(m, g, c)
    ensures Kept(ForgeFor(m, h, code, arg), g, c)
  {
    var mem := ForgeFor(m, h, code, arg);
    forall a: Word | Owns(g, a) ensures Get(mem, a) == Get(m, a) {
      ForgeWrites(m, h, code, arg, a);
    }
    Undisturbed(m, mem, g, c);
  }

  lemma PrepareInv(s: Sys, e: Event, homes: map<Tid, Home>)
    requires Inv(s, homes) && Allowed(s, e, homes) && e.Prepare?
    ensures Inv(Next(s, e), homes)
  {
    var mem := ForgeFor(s.m.mem, e.home, e.code, e.arg);
    ForgedFrame(s.m.mem, e.home, e.code, e.arg);
    forall t | t in s.saved ensures Kept(mem, homes[t], s.saved[t]) {
      assert Apart(homes[t], e.home);
      ForgeKeepsOther(s.m.mem, e.home, e.code, e.arg, homes[t], s.saved[t]);
    }
  }

  lemma StepInv(s: Sys, e: Event, homes: map<Tid, Home>)
    requires Inv(s, homes) && Allowed(s, e, homes)
    ensures Inv(Next(s, e), homes)
  {
    match e
    case Own(m) =>
      forall t | t in s.saved ensures Kept(m.mem, homes[t], s.saved[t]) {
        Undisturbed(s.m.mem, m.mem, homes[t], s.saved[t]);
      }
    case Prepare(_, _, _, _) => PrepareInv(s, e, homes);
    case SwitchTo(t) => SwitchInv(s, t, homes);
  }

  // ----- runs -----

  ghost predicate ValidRun(s: Sys, run: seq<Event>, homes: map<Tid, Home>)
    decreases run
  {
    run == [] || (s.current in homes && Allowed(s, run[0], homes) && ValidRun(Next(s, run[0]), run[1..], homes))
  }

  function Final(s: Sys, run: seq<Event>): Sys
    decreases run
  {
    if run == [] then s else Final(Next(s, run[0]), run[1..])
  }

  lemma NextSaved(s: Sys, e: Event, t: Tid)
    requires t in s.saved && e != SwitchTo(t) && s.current != t && (e.Prepare? ==> e.t != t)
    ensures t in Next(s, e).saved && Next(s, e).saved[t] == s.saved[t]
  {}

  /** A suspended thread stays as it entered SWITCH through any run that does not switch to it. */
  lemma {:induction false} StaysSuspended(s: Sys, run: seq<Event>, homes: map<Tid, Home>, t: Tid)
    requires Inv(s, homes) && ValidRun(s, run, homes) && t in s.saved && SwitchTo(t) !in run
    ensures Inv(Final(s, run), homes)
    ensures t in Final(s, run).saved && Final(s, run).saved[t] == s.saved[t]
    decreases run
  {
    if run != [] {
      var e, rest := run[0], run[1..];
      assert SwitchTo(t) !in rest && e != SwitchTo(t);
      StepInv(s, e, homes);
      NextSaved(s, e, t);
      StaysSuspended(Next(s, e), rest, homes, t);
    }
  }

  /** The first switch back to a thread that was suspended with machine c. */
  lemma FirstSwitchBack(s: Sys, run: seq<Event>, homes: map<Tid, Home>, t: Tid)
    requires Inv(s, homes) && ValidRun(s, run, homes) && t in s.saved && SwitchTo(t) !in run
    requires Final(s, run).current in homes && Allowed(Final(s, run), SwitchTo(t), homes)
    ensures Resumes(Final(s, run).m, homes[Final(s, run).current], homes[t], s.saved[t])
  {
    StaysSuspended(s, run, homes, t);
    SavedResumes(Final(s, run), homes, t);
  }

  lemma Leaving(s: Sys, to: Tid, s1: Sys, homes: map<Tid, Home>)
    requires Inv(s, homes) && Allowed(s, SwitchTo(to), homes) && to != s.current
    requires s1 == Next(s, SwitchTo(to))
    ensures Inv(s1, homes) && s.current in s1.saved && s1.saved[s.current] == s.m
  {
    SwitchInv(s, to, homes);
  }

  /** Context isolation over all runs: a thread calls SWITCH to leave the CPU; whatever the other
      threads do and however often they switch, the first SWITCH back to it returns from its own
      call, with eax, ebx, ecx, edx, esi, edi and ebp as at the call, esp just past the return
      address, and its stack as it was but for the dead argument slot. */
  lemma ContextIsolation(s: Sys, to: Tid, s1: Sys, run: seq<Event>, homes: map<Tid, Home>)
    requires Inv(s, homes) && Allowed(s, SwitchTo(to), homes) && to != s.current
    requires s1 == Next(s, SwitchTo(to)) && ValidRun(s1, run, homes) && SwitchTo(s.current) !in run
    requires Final(s1, run).current in homes && Allowed(Final(s1, run), SwitchTo(s.current), homes)
    ensures Resumes(Final(s1, run).m, homes[Final(s1, run).current], homes[s.current], s.m)
  {
    Leaving(s, to, s1, homes);
    FirstSwitchBack(s1, run, homes, s.current);
  }

  lemma SavedResumes(s: Sys, homes: map<Tid, Home>, t: Tid)
    requires Inv(s, homes) && t in s.saved && Allowed(s, SwitchTo(t), homes)
    ensures Resumes(s.m, homes[s.current], homes[t], s.saved[t])
  {
    TargetKept(s, t, homes);
    SwitchResumes(s.m, homes[s.current], homes[t], s.saved[t]);
  }

  /** SWITCH(t, t) keeps all registers and goes on at its own return address. */
  lemma SwitchToSelf(s: Sys, homes: map<Tid, Home>)
    requires Inv(s, homes) && Allowed(s, SwitchTo(s.current), homes)
    ensures var (m, pc) := Switch(s.m);
      m.regs == s.m.regs.(esp := s.m.regs.esp + 4) && pc == Get(s.m.mem, s.m.regs.esp)
  {
    TargetKept(s, s.current, homes);
    SwitchResumes(s.m, homes[s.current], homes[s.current], s.m);
  }

  /** Every address SWITCH forms lies in memory: the words of both thread objects, and the words of
      the two stacks it reads, writes and leaves esp at. */
  lemma NoWrap(s: Sys, t: Tid, homes: map<Tid, Home>)
    requires Inv(s, homes) && Allowed(s, SwitchTo(t), homes)
    ensures forall k :: 0 <= k <= PC ==> 0 <= At(homes[s.current].block, k) < WORDS && 0 <= At(homes[t].block, k) < WORDS
    ensures 0 <= s.m.regs.esp && At(s.m.regs.esp, 8) < WORDS
    ensures 0 <= Switch(s.m).0.regs.esp < WORDS
  {
    TargetKept(s, t, homes);
    SwitchResumes(s.m, homes[s.current], homes[t], if t == s.current then s.m else s.saved[t]);
  }
}
