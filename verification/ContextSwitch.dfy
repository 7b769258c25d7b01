/**
 The i386 context switch: SWITCH of swtch.s, the frame StackAllocate forges, and the words they
 touch. Machine executes the instructions in place; the functions on Mach say what they compute.
 */
module ContextSwitch {

  /** The machine has 32-bit words. Registers and memory hold numbers here; ContextRuns.NoWrap shows
      that SWITCH forms no address outside [0, WORDS) in any run, so that address arithmetic never
      wraps around. */
  const WORDS: int := 0x1_0000_0000

  type Word = int

  type Memory = map<Word, Word>

  datatype Regs = Regs(eax: Word, ebx: Word, ecx: Word, edx: Word, esi: Word, edi: Word, ebp: Word, esp: Word)

  /** Registers, memory and the scratch word _eax_save. */
  datatype Mach = Mach(regs: Regs, mem: Memory, eaxSave: Word)

  /** Offsets in a thread object, as SWITCH uses them and as switch.h names them. */
  const ESP := 0
  const EAX := 4
  const EBX := 8
  const ECX := 12
  const EDX := 16
  const EBP := 20
  const ESI := 24
  const EDI := 28
  const PC := 32

  /** The address disp(base). */
  function At(base: Word, disp: int): Word {
    base + disp
  }

  /** Memory that was never written reads as 0. */
  function Get(m: Memory, a: Word): Word {
    if a in m then m[a] else 0
  }

  /** The registers a thread object holds, the stack pointer among them. */
  function Saved(m: Memory, t: Word): Regs {
    Regs(Get(m, At(t, EAX)), Get(m, At(t, EBX)), Get(m, At(t, ECX)), Get(m, At(t, EDX)),
         Get(m, At(t, ESI)), Get(m, At(t, EDI)), Get(m, At(t, EBP)), Get(m, At(t, ESP)))
  }

  function SaveRegs(m: Memory, t: Word, r: Regs): Memory {
    m[At(t, EBX) := r.ebx][At(t, ECX) := r.ecx][At(t, EDX) := r.edx][At(t, ESI) := r.esi]
     [At(t, EDI) := r.edi][At(t, EBP) := r.ebp][At(t, ESP) := r.esp][At(t, EAX) := r.eax]
  }

  /** The memory after the first half of SWITCH: the caller is saved in its thread object. */
  function SaveCaller(m: Mach): Memory {
    var mem := SaveRegs(m.mem, Get(m.mem, At(m.regs.esp, 4)), m.regs);
    mem[At(Get(m.mem, At(m.regs.esp, 4)), PC) := Get(mem, m.regs.esp)]
  }

  /** The second half, on the memory the first half left and the stack pointer of the caller: the
      machine behind ret, and the address ret jumps to. */
  function LoadTarget(mem: Memory, esp: Word): (Mach, Word) {
    var t2 := Get(mem, At(esp, 8));
    var r := Saved(mem, t2);
    var mem2 := mem[At(r.esp, 4) := Get(mem, At(t2, PC))];
    (Mach(r.(esp := At(r.esp, 4)), mem2, r.eax), Get(mem2, r.esp))
  }

  /** SWITCH as a whole. */
  function Switch(m: Mach): (Mach, Word) {
    LoadTarget(SaveCaller(m), m.regs.esp)
  }

  const STACK_SIZE := 4 * 1024
  const STACK_FENCEPOST: Word := 0xdeadbeef

  /** The word of a new stack that holds the forged return address. */
  function StackTop(stack: Word): Word {
    At(stack, 4 * (STACK_SIZE - 5))
  }

  /** The memory after StackAllocate for thread object t on the stack at the given address. */
  function Forge(m: Memory, t: Word, stack: Word, root: Word, enable: Word, func: Word, arg: Word, finish: Word): Memory {
    m[StackTop(stack) := root][stack := STACK_FENCEPOST][At(t, ESP) := StackTop(stack)]
     [At(t, PC) := root][At(t, ECX) := enable][At(t, ESI) := func][At(t, EDX) := arg][At(t, EDI) := finish]
  }

  // ----- ThreadRoot -----

  /** What the code called at an address leaves behind, from the machine at its entry to the one
      behind its ret. */
  type Env = (Word, Mach) -> Mach

  /** A call as its target finds it: the address called, the word its ret will jump to, and the word
      in the place of its first argument. */
  datatype CallSite = CallSite(target: Word, back: Word, arg: Word)

  function Push(m: Mach, w: Word): Mach {
    var esp := At(m.regs.esp, -4);
    m.(regs := m.regs.(esp := esp), mem := m.mem[esp := w])
  }

  /** The frame ThreadRoot builds before its first call. */
  function RootFrame(m: Mach): Mach {
    var m1 := Push(m, m.regs.ebp);
    Push(m1.(regs := m1.regs.(ebp := m1.regs.esp)), m.regs.edx)
  }

  function Site(target: Word, m: Mach): CallSite {
    CallSite(target, Get(m.mem, m.regs.esp), Get(m.mem, At(m.regs.esp, 4)))
  }

  /** The addresses behind the three calls of ThreadRoot. */
  datatype Back = Back(startup: Word, initial: Word, whenDone: Word)

  /** ThreadRoot as a whole: its calls, the machine behind its ret, and the address ret jumps to. What
      stands behind the third call is reached only if the code called there returns. */
  function Root(m: Mach, env: Env, back: Back): (seq<CallSite>, Mach, Word) {
    var m1 := Push(RootFrame(m), back.startup);
    var m2 := env(m1.regs.ecx, m1);
    var m3 := Push(m2, back.initial);
    var m4 := env(m3.regs.esi, m3);
    var m5 := Push(m4, back.whenDone);
    var (m6, pc) := Leave(env(m5.regs.edi, m5));
    ([Site(m1.regs.ecx, m1), Site(m3.regs.esi, m3), Site(m5.regs.edi, m5)], m6, pc)
  }

  /** The end of ThreadRoot: its frame is dropped, and ret pops the word behind it. */
  function Leave(m: Mach): (Mach, Word) {
    var esp := At(m.regs.ebp, 4);
    (m.(regs := m.regs.(ebp := Get(m.mem, m.regs.ebp), esp := At(esp, 4))), Get(m.mem, esp))
  }

  class Machine {
    var eax: Word
    var ebx: Word
    var ecx: Word
    var edx: Word
    var esi: Word
    var edi: Word
    var ebp: Word
    var esp: Word
    var pc: Word
    var mem: Memory
    var eaxSave: Word

    function Value(): Mach
      reads this
    {
      Mach(Regs(eax, ebx, ecx, edx, esi, edi, ebp, esp), mem, eaxSave)
    }

    /** SWITCH, instruction by instruction, from its entry to behind its ret. */
    method SWITCH()
      modifies this
      ensures (Value(), pc) == Switch(old(Value()))
    {
      SaveT1();
      LoadT2();
      Return();
    }

    /** Its first half, up to the load of the pointer to t2. */
    method SaveT1()
      modifies this
      ensures mem == SaveCaller(old(Value())) && esp == old(esp)
    {
      ghost var m := Value();
      eaxSave := eax;
      eax := Get(mem, At(esp, 4));
      mem := mem[At(eax, 8) := ebx];
      mem := mem[At(eax, 12) := ecx];
      mem := mem[At(eax, 16) := edx];
      mem := mem[At(eax, 24) := esi];
      mem := mem[At(eax, 28) := edi];
      mem := mem[At(eax, 20) := ebp];
      mem := mem[At(eax, 0) := esp];
      ebx := eaxSave;
      mem := mem[At(eax, 4) := ebx];
      assert mem == SaveRegs(m.mem, eax, m.regs);
      ebx := Get(mem, At(esp, 0));
      mem := mem[At(eax, 32) := ebx];
    }

    /** The loads: the return address ends up in eax, the value for eax in _eax_save. */
    method LoadT2()
      modifies this
      ensures mem == old(mem)
      ensures var t2 := Get(mem, At(old(esp), 8));
        && Regs(eaxSave, ebx, ecx, edx, esi, edi, ebp, esp) == Saved(mem, t2)
        && eax == Get(mem, At(t2, PC))
    {
      eax := Get(mem, At(esp, 8));
      ebx := Get(mem, At(eax, 4));
      eaxSave := ebx;
      ebx := Get(mem, At(eax, 8));
      ecx := Get(mem, At(eax, 12));
      edx := Get(mem, At(eax, 16));
      esi := Get(mem, At(eax, 24));
      edi := Get(mem, At(eax, 28));
      ebp := Get(mem, At(eax, 20));
      esp := Get(mem, At(eax, 0));
      eax := Get(mem, At(eax, 32));
    }

    /** The last three instructions. */
    method Return()
      modifies this
      ensures mem == old(mem)[At(old(esp), 4) := old(eax)] && eaxSave == old(eaxSave)
      ensures Value().regs == old(Value().regs).(eax := old(eaxSave), esp := At(old(esp), 4))
      ensures pc == Get(mem, old(esp))
    {
      mem := mem[At(esp, 4) := eax];
      eax := eaxSave;
      pc := Get(mem, esp);
      esp := At(esp, 4);
    }

    /** StackAllocate for the host i386; AllocBoundedArray has returned the stack. machineState
        starts 4 bytes into the thread object. */
    method StackAllocate(t: Word, stack: Word, root: Word, enable: Word, func: Word, arg: Word, finish: Word)
      modifies this`mem
      ensures mem == Forge(old(mem), t, stack, root, enable, func, arg, finish)
    {
      var stackTop := At(stack, 4 * (STACK_SIZE - 4));
      stackTop := At(stackTop, -4);
      mem := mem[stackTop := root];
      mem := mem[stack := STACK_FENCEPOST];
      mem := mem[At(t, 0) := stackTop];
      mem := mem[At(t, 4 + 4 * (PC / 4 - 1)) := root];
      mem := mem[At(t, 4 + 4 * (ECX / 4 - 1)) := enable];
      mem := mem[At(t, 4 + 4 * (ESI / 4 - 1)) := func];
      mem := mem[At(t, 4 + 4 * (EDX / 4 - 1)) := arg];
      mem := mem[At(t, 4 + 4 * (EDI / 4 - 1)) := finish];
    }
  
    method PushWord(w: Word)
      modifies this`esp, this`mem
      ensures Value() == Push(old(Value()), w)
    {
      esp := At(esp, -4);
      mem := mem[esp := w];
    }

    /** call *target, and the code there up to behind its ret. */
    method Call(target: Word, env: Env, back: Word) returns (site: CallSite)
      modifies this
      ensures var m := Push(old(Value()), back);
        site == Site(target, m) && Value() == env(target, m)
    {
      PushWord(back);
      site := Site(target, Value());
      var m := env(target, Value());
      eax, ebx, ecx, edx := m.regs.eax, m.regs.ebx, m.regs.ecx, m.regs.edx;
      esi, edi, ebp, esp := m.regs.esi, m.regs.edi, m.regs.ebp, m.regs.esp;
      mem, eaxSave := m.mem, m.eaxSave;
    }

    /** ThreadRoot, instruction by instruction. */
    method ThreadRoot(env: Env, back: Back) returns (calls: seq<CallSite>)
      modifies this
      ensures (calls, Value(), pc) == Root(old(Value()), env, back)
    {
      PushWord(ebp);
      ebp := esp;
      PushWord(edx);
      var startup := Call(ecx, env, back.startup);
      var initial := Call(esi, env, back.initial);
      var whenDone := Call(edi, env, back.whenDone);
      calls := [startup, initial, whenDone];
      esp := ebp;
      ebp := Get(mem, esp);
      esp := At(esp, 4);
      pc := Get(mem, esp);
      esp := At(esp, 4);
    }
  }
}
