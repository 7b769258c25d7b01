/** What a forked thread does first: the forged frame of StackAllocate runs the right code. */
module ThreadStart {
  import opened ContextSwitch
  import opened ContextRuns

  /** What the code that ThreadRoot calls keeps, by the calling sequence of the System V ABI for the
      Intel386: it pops its return address and restores ebx, esi, edi and ebp; a function without
      parameters leaves the words of its caller alone. */
  ghost predicate Abi(env: Env, enable: Word) {
    && (forall f, m :: KeepsRegisters(m, env(f, m)))
    && (forall m :: KeepsArgument(m, env(enable, m)))
  }

  predicate KeepsRegisters(m: Mach, r: Mach) {
    && r.regs.esp == m.regs.esp + 4 && r.regs.ebx == m.regs.ebx
    && r.regs.esi == m.regs.esi && r.regs.edi == m.regs.edi && r.regs.ebp == m.regs.ebp
  }

  predicate KeepsArgument(m: Mach, r: Mach) {
    Get(r.mem, m.regs.esp + 4) == Get(m.mem, m.regs.esp + 4)
  }

  /** ThreadRoot calls the start-up code, then the thread's function on its argument, then the code
      that finishes the thread, and each of them returns behind its own call. */
  lemma RootCallsInOrder(m: Mach, env: Env, back: Back)
    requires Abi(env, m.regs.ecx)
    ensures var c := Root(m, env, back).0;
      && |c| == 3
      && c[0] == CallSite(m.regs.ecx, back.startup, m.regs.edx)
      && c[1] == CallSite(m.regs.esi, back.initial, m.regs.edx)
      && c[2].target == m.regs.edi && c[2].back == back.whenDone
  {
    var m1 := Push(RootFrame(m), back.startup);
    var m2 := env(m1.regs.ecx, m1);
    assert KeepsRegisters(m1, m2) && KeepsArgument(m1, m2);
    var m3 := Push(m2, back.initial);
    assert KeepsRegisters(m3, env(m3.regs.esi, m3));
  }

  /** Code called by ThreadRoot leaves alone the two words at ebp: the frame of its caller. */
  ghost predicate KeepsFrames(env: Env) {
    forall f, m :: KeepsFrame(m, env(f, m))
  }

  predicate KeepsFrame(m: Mach, r: Mach) {
    Get(r.mem, m.regs.ebp) == Get(m.mem, m.regs.ebp) && Get(r.mem, m.regs.ebp + 4) == Get(m.mem, m.regs.ebp + 4)
  }

  lemma CallKeepsFrame(m: Mach, back: Word, r: Mach)
    requires KeepsFrame(Push(m, back), r) && KeepsRegisters(Push(m, back), r) && m.regs.esp < m.regs.ebp
    ensures KeepsFrame(m, r) && KeepsRegisters(m, r.(regs := r.regs.(esp := m.regs.esp + 4))) && r.regs.esp == m.regs.esp
  {}

  /** If all three calls return, ThreadRoot returns: the registers that a call keeps are restored, and
      ret takes the word that esp pointed to when ThreadRoot was entered. */
  lemma RootReturns(m: Mach, env: Env, back: Back)
    requires Abi(env, m.regs.ecx) && KeepsFrames(env)
    ensures var (_, m', pc) := Root(m, env, back);
      KeepsRegisters(m, m') && pc == Get(m.mem, m.regs.esp)
  {
    var m0 := RootFrame(m);
    assert Get(m0.mem, m0.regs.ebp) == m.regs.ebp && Get(m0.mem, m0.regs.ebp + 4) == Get(m.mem, m.regs.esp);
    var m2 := env(m0.regs.ecx, Push(m0, back.startup));
    CallKeepsFrame(m0, back.startup, m2);
    var m4 := env(m2.regs.esi, Push(m2, back.initial));
    CallKeepsFrame(m2, back.initial, m4);
    var m6 := env(m4.regs.edi, Push(m4, back.whenDone));
    CallKeepsFrame(m4, back.whenDone, m6);
  }

  ghost predicate KeepsWord(env: Env, a: Word) {
    forall f, m :: Get(env(f, m).mem, a) == Get(m.mem, a)
  }

  /** ThreadRoot itself writes three words, below the stack pointer it was entered with. */
  lemma RootWrites(m: Mach, env: Env, back: Back, a: Word)
    requires Abi(env, m.regs.ecx) && KeepsWord(env, a)
    requires m.regs.esp - a !in {4, 8, 12}
    ensures Get(Root(m, env, back).1.mem, a) == Get(m.mem, a)
  {
    var m1 := Push(RootFrame(m), back.startup);
    var m3 := Push(env(m1.regs.ecx, m1), back.initial);
    assert KeepsRegisters(m1, env(m1.regs.ecx, m1)) && KeepsRegisters(m3, env(m3.regs.esi, m3));
  }

  /** Fork bootstrap: whatever the other threads do after StackAllocate(func, arg), the first SWITCH
      to the new thread jumps to ThreadRoot, and ThreadRoot enables interrupts, calls func(arg) and
      finishes the thread, in this order, each call returning behind itself. */
  lemma ForkBootstrap(s: Sys, e: Event, s1: Sys, run: seq<Event>, homes: map<Tid, Home>, env: Env, back: Back)
    requires Inv(s, homes) && e.Prepare? && Allowed(s, e, homes) && s1 == Next(s, e)
    requires ValidRun(s1, run, homes) && SwitchTo(e.t) !in run
    requires Final(s1, run).current in homes && Allowed(Final(s1, run), SwitchTo(e.t), homes)
    requires Abi(env, e.code.enable)
    ensures var (m, pc) := Switch(Final(s1, run).m);
      && pc == e.code.root
      && var c := Root(m, env, back).0;
      && |c| == 3
      && c[0] == CallSite(e.code.enable, back.startup, e.arg)
      && c[1] == CallSite(e.code.func, back.initial, e.arg)
      && c[2].target == e.code.finish && c[2].back == back.whenDone
  {
    PrepareInv(s, e, homes);
    ForgedFrame(s.m.mem, e.home, e.code, e.arg);
    FirstSwitchBack(s1, run, homes, e.t);
    RootCallsInOrder(Switch(Final(s1, run).m).0, env, back);
  }

  /** Why the code that finishes a thread must not return: SWITCH has copied ThreadRoot's address to
      the word above the forged frame, so ThreadRoot would return to ThreadRoot. */
  lemma RootWouldRunAgain(s: Sys, e: Event, s1: Sys, run: seq<Event>, homes: map<Tid, Home>, env: Env, back: Back)
    requires Inv(s, homes) && e.Prepare? && Allowed(s, e, homes) && s1 == Next(s, e)
    requires ValidRun(s1, run, homes) && SwitchTo(e.t) !in run
    requires Final(s1, run).current in homes && Allowed(Final(s1, run), SwitchTo(e.t), homes)
    requires Abi(env, e.code.enable) && KeepsFrames(env)
    ensures Root(Switch(Final(s1, run).m).0, env, back).2 == e.code.root
  {
    PrepareInv(s, e, homes);
    ForgedFrame(s.m.mem, e.home, e.code, e.arg);
    FirstSwitchBack(s1, run, homes, e.t);
    RootReturns(Switch(Final(s1, run).m).0, env, back);
  }

  /** The machine after the running thread pushed the arguments and the return address of a call of
      SWITCH, with esp at the return address. */
  function CallFrame(m: Mach, esp: Word, ret: Word, t1: Word, t2: Word): Mach {
    m.(regs := m.regs.(esp := esp), mem := m.mem[esp := ret][At(esp, 4) := t1][At(esp, 8) := t2])
  }

  lemma CallFrameInside(m: Mach, h: Home, esp: Word, ret: Word, t2: Word)
    requires h.lo <= esp && esp + 12 <= h.hi
    ensures CallsSwitch(CallFrame(m, esp, ret, h.block, t2), h, t2)
  {}

  lemma CallFrameOutside(m: Mach, g: Home, h: Home, esp: Word, ret: Word, t2: Word, a: Word)
    requires Apart(g, h) && Owns(g, a) && h.lo <= esp && esp + 12 <= h.hi
    ensures Get(CallFrame(m, esp, ret, h.block, t2).mem, a) == Get(m.mem, a)
  {}

  /** Such runs exist: with room for a call frame on its own stack, the running thread can call SWITCH
      to any suspended thread, a new one among them. */
  lemma CanCallSwitch(s: Sys, t: Tid, m: Mach, esp: Word, ret: Word, homes: map<Tid, Home>)
    requires Inv(s, homes) && t in s.saved
    requires var h := homes[s.current]; esp % 4 == 0 && h.lo <= esp && esp + 12 <= h.hi
    requires m == CallFrame(s.m, esp, ret, homes[s.current].block, homes[t].block)
    ensures Allowed(s, Own(m), homes) && Allowed(Next(s, Own(m)), SwitchTo(t), homes)
  {
    var h := homes[s.current];
    CallFrameInside(s.m, h, esp, ret, homes[t].block);
    forall u, a: Word | u in s.saved && u in homes && (InBlock(homes[u], a) || s.saved[u].regs.esp <= a < homes[u].hi)
      ensures Get(m.mem, a) == Get(s.m.mem, a)
    {
      assert Apart(homes[u], h) && Kept(s.m.mem, homes[u], s.saved[u]);
      CallFrameOutside(s.m, homes[u], h, esp, ret, homes[t].block, a);
    }
  }
}
