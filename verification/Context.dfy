/** The assembly of the context switch, instruction by instruction, on a machine whose memory is
    addressed by words: an offset of 4 bytes in the assembly is 1 here, and stacks grow downwards. */
module Context {
  import opened Scheduler

  /** The words of memory; one that is not listed holds 0. */
  type Memory = map<int, int>

  function At(mem: Memory, a: int): int { if a in mem then mem[a] else 0 }

  datatype Reg = Eax | Ebx | Ecx | Edx | Esi | Edi | Ebp | Esp

  datatype Machine = Machine(eax: int, ebx: int, ecx: int, edx: int, esi: int, edi: int, ebp: int, esp: int,
                             eip: int, mem: Memory)
  {
    function Get(r: Reg): int {
      match r
      case Eax => eax case Ebx => ebx case Ecx => ecx case Edx => edx
      case Esi => esi case Edi => edi case Ebp => ebp case Esp => esp
    }

    function Set(r: Reg, v: int): Machine {
      match r
      case Eax => this.(eax := v) case Ebx => this.(ebx := v)
      case Ecx => this.(ecx := v) case Edx => this.(edx := v)
      case Esi => this.(esi := v) case Edi => this.(edi := v)
      case Ebp => this.(ebp := v) case Esp => this.(esp := v)
    }

    function Write(a: int, v: int): Machine { this.(mem := mem[a := v]) }

    function PushValue(v: int): Machine { this.(esp := esp - 1).Write(esp - 1, v) }

    function Next(): Machine { this.(eip := eip + 1) }
  }

  datatype Instr =
    | Load(off: int, src: Reg, dst: Reg)
    | Store(src: Reg, off: int, dst: Reg)
    | StoreImm(v: int, off: int, dst: Reg)
    | Push(r: Reg)
    | PushImm(v: int)
    | PushMem(off: int, src: Reg)
    | Pop(r: Reg)
    | Xor(r: Reg)
    | Ret
    | CallReg(r: Reg)
    | CallTo(a: int)

  function Do(m: Machine, i: Instr): Machine {
    match i
    case Load(off, src, dst) => m.Set(dst, At(m.mem, m.Get(src) + off)).Next()
    case Store(src, off, dst) => m.Write(m.Get(dst) + off, m.Get(src)).Next()
    case StoreImm(v, off, dst) => m.Write(m.Get(dst) + off, v).Next()
    case Push(r) => m.PushValue(m.Get(r)).Next()
    case PushImm(v) => m.PushValue(v).Next()
    case PushMem(off, src) => m.PushValue(At(m.mem, m.Get(src) + off)).Next()
    case Pop(r) => m.(esp := m.esp + 1).Set(r, At(m.mem, m.esp)).Next()
    case Xor(r) => m.Set(r, 0).Next()
    case Ret => m.(eip := At(m.mem, m.esp), esp := m.esp + 1)
    case CallReg(r) => m.PushValue(m.eip + 1).(eip := m.Get(r))
    case CallTo(a) => m.PushValue(m.eip + 1).(eip := a)
  }

  // ---------- The code ----------

  const SWITCH_CONTEXT := 1000
  const SWAP_CONTEXT := 2000
  const RESUMED := 2011
  const BOUNCER := 3000
  const THREAD_EXIT := 4000

  /** The instruction at an address, if it is one of the library's. */
  function Code(pc: int): Option<Instr> {
    match pc
    // switch_context
    case 1000 => Some(Load(1, Esp, Edx))
    case 1001 => Some(Load(0, Edx, Esp))
    case 1002 => Some(PushMem(1, Edx))
    case 1003 => Some(Ret)
    // swap_context
    case 2000 => Some(Load(1, Esp, Ecx))
    case 2001 => Some(Load(2, Esp, Edx))
    case 2002 => Some(Push(Ebp))
    case 2003 => Some(Push(Ebx))
    case 2004 => Some(Push(Esi))
    case 2005 => Some(Push(Edi))
    case 2006 => Some(Store(Esp, 0, Ecx))
    case 2007 => Some(Load(0, Edx, Esp))
    case 2008 => Some(StoreImm(RESUMED, 1, Ecx))
    case 2009 => Some(PushMem(1, Edx))
    case 2010 => Some(Ret)
    case 2011 => Some(Pop(Edi))
    case 2012 => Some(Pop(Esi))
    case 2013 => Some(Pop(Ebx))
    case 2014 => Some(Pop(Ebp))
    case 2015 => Some(Ret)
    // bouncer
    case 3000 => Some(Pop(Eax))
    case 3001 => Some(Pop(Ebx))
    case 3002 => Some(PushImm(0))
    case 3003 => Some(Xor(Ebp))
    case 3004 => Some(Push(Eax))
    case 3005 => Some(CallReg(Ebx))
    case 3006 => Some(CallTo(THREAD_EXIT))
    case _ => None
  }

  /** `n` instructions of the library, or fewer if control leaves it. */
  function Exec(m: Machine, n: nat): Machine
    decreases n
  {
    if n == 0 || Code(m.eip).None? then m else Exec(Do(m, Code(m.eip).value), n - 1)
  }

  lemma {:induction false} ExecAdd(m: Machine, a: nat, b: nat)
    ensures Exec(Exec(m, a), b) == Exec(m, a + b)
    decreases a
  {
    hide Code, Do;
    if a > 0 && Code(m.eip).Some? {
      ExecAdd(Do(m, Code(m.eip).value), a - 1, b);
    }
  }

  lemma One(m: Machine, i: Instr, n: nat)
    requires Code(m.eip) == Some(i)
    ensures Exec(m, n + 1) == Exec(Do(m, i), n)
  {
  }

  lemma Done(m: Machine)
    ensures Exec(m, 0) == m
  {
  }

  // ---------- One instruction of each kind ----------

  lemma DoLoad(m: Machine, off: int, src: Reg, dst: Reg, n: nat) returns (m': Machine)
    requires Code(m.eip) == Some(Load(off, src, dst))
    ensures m' == m.Set(dst, At(m.mem, m.Get(src) + off)).Next()
    ensures Exec(m, n + 1) == Exec(m', n)
  {
    One(m, Load(off, src, dst), n);
    m' := Do(m, Load(off, src, dst));
  }

  lemma DoStore(m: Machine, src: Reg, off: int, dst: Reg, n: nat) returns (m': Machine)
    requires Code(m.eip) == Some(Store(src, off, dst))
    ensures m' == m.(mem := m.mem[m.Get(dst) + off := m.Get(src)], eip := m.eip + 1)
    ensures Exec(m, n + 1) == Exec(m', n)
  {
    One(m, Store(src, off, dst), n);
    m' := Do(m, Store(src, off, dst));
  }

  lemma DoStoreImm(m: Machine, v: int, off: int, dst: Reg, n: nat) returns (m': Machine)
    requires Code(m.eip) == Some(StoreImm(v, off, dst))
    ensures m' == m.(mem := m.mem[m.Get(dst) + off := v], eip := m.eip + 1)
    ensures Exec(m, n + 1) == Exec(m', n)
  {
    One(m, StoreImm(v, off, dst), n);
    m' := Do(m, StoreImm(v, off, dst));
  }

  lemma DoPush(m: Machine, r: Reg, n: nat) returns (m': Machine)
    requires Code(m.eip) == Some(Push(r))
    ensures m' == m.(esp := m.esp - 1, mem := m.mem[m.esp - 1 := m.Get(r)], eip := m.eip + 1)
    ensures Exec(m, n + 1) == Exec(m', n)
  {
    One(m, Push(r), n);
    m' := Do(m, Push(r));
  }

  lemma DoPushImm(m: Machine, v: int, n: nat) returns (m': Machine)
    requires Code(m.eip) == Some(PushImm(v))
    ensures m' == m.(esp := m.esp - 1, mem := m.mem[m.esp - 1 := v], eip := m.eip + 1)
    ensures Exec(m, n + 1) == Exec(m', n)
  {
    One(m, PushImm(v), n);
    m' := Do(m, PushImm(v));
  }

  lemma DoPushMem(m: Machine, off: int, src: Reg, n: nat) returns (m': Machine)
    requires Code(m.eip) == Some(PushMem(off, src))
    ensures m' == m.(esp := m.esp - 1, mem := m.mem[m.esp - 1 := At(m.mem, m.Get(src) + off)], eip := m.eip + 1)
    ensures Exec(m, n + 1) == Exec(m', n)
  {
    One(m, PushMem(off, src), n);
    m' := Do(m, PushMem(off, src));
  }

  lemma DoPop(m: Machine, r: Reg, n: nat) returns (m': Machine)
    requires Code(m.eip) == Some(Pop(r))
    ensures m' == m.(esp := m.esp + 1).Set(r, At(m.mem, m.esp)).Next()
    ensures Exec(m, n + 1) == Exec(m', n)
  {
    One(m, Pop(r), n);
    m' := Do(m, Pop(r));
  }

  lemma DoXor(m: Machine, r: Reg, n: nat) returns (m': Machine)
    requires Code(m.eip) == Some(Xor(r))
    ensures m' == m.Set(r, 0).Next()
    ensures Exec(m, n + 1) == Exec(m', n)
  {
    One(m, Xor(r), n);
    m' := Do(m, Xor(r));
  }

  lemma DoRet(m: Machine, n: nat) returns (m': Machine)
    requires Code(m.eip) == Some(Ret)
    ensures m' == m.(eip := At(m.mem, m.esp), esp := m.esp + 1)
    ensures Exec(m, n + 1) == Exec(m', n)
  {
    One(m, Ret, n);
    m' := Do(m, Ret);
  }

  lemma DoCallReg(m: Machine, r: Reg, n: nat) returns (m': Machine)
    requires Code(m.eip) == Some(CallReg(r))
    ensures m' == m.(esp := m.esp - 1, mem := m.mem[m.esp - 1 := m.eip + 1], eip := m.Get(r))
    ensures Exec(m, n + 1) == Exec(m', n)
  {
    One(m, CallReg(r), n);
    m' := Do(m, CallReg(r));
  }

  // ---------- What each stretch of code does ----------

  /** Registers a called function must leave as they were. */
  datatype Frame = Frame(ebp: int, ebx: int, esi: int, edi: int, esp: int, ret: int)

  function FrameAt(m: Machine): Frame {
    Frame(m.ebp, m.ebx, m.esi, m.edi, m.esp, At(m.mem, m.esp))
  }

  /** The four registers lie on the stack below the return address. */
  predicate Spilled(mem: Memory, f: Frame) {
    && At(mem, f.esp) == f.ret && At(mem, f.esp - 1) == f.ebp && At(mem, f.esp - 2) == f.ebx
    && At(mem, f.esp - 3) == f.esi && At(mem, f.esp - 4) == f.edi
  }

  function SpillTo(mem: Memory, f: Frame, cur: int): Memory {
    mem[f.esp - 1 := f.ebp][f.esp - 2 := f.ebx][f.esp - 3 := f.esi][f.esp - 4 := f.edi][cur := f.esp - 4]
  }

  lemma SpillMemory(mem: Memory, f: Frame, cur: int)
    requires At(mem, f.esp) == f.ret && (cur < f.esp - 4 || f.esp < cur)
    ensures var mem' := SpillTo(mem, f, cur);
      && Spilled(mem', f) && At(mem', cur) == f.esp - 4
      && forall a | !(f.esp - 4 <= a < f.esp) && a != cur :: At(mem', a) == At(mem, a)
  {
  }

  lemma PushesAndStore(m: Machine)
    requires m.eip == SWAP_CONTEXT + 2
    ensures Exec(m, 5) == m.(esp := m.esp - 4, eip := SWAP_CONTEXT + 7, mem := SpillTo(m.mem, FrameAt(m), m.ecx))
  {
    hide Exec, Do, At;
    var m3 := DoPush(m, Ebp, 4);
    var m4 := DoPush(m3, Ebx, 3);
    var m5 := DoPush(m4, Esi, 2);
    var m6 := DoPush(m5, Edi, 1);
    var m7 := DoStore(m6, Esp, 0, Ecx, 0);
    Done(m7);
  }

  lemma SwapSpills(m: Machine, cur: int)
    requires m.eip == SWAP_CONTEXT && At(m.mem, m.esp + 1) == cur
    requires cur < m.esp - 4 || m.esp < cur
    ensures
      var m' := Exec(m, 7);
      && m'.eip == SWAP_CONTEXT + 7 && m'.ecx == cur && m'.edx == At(m.mem, m.esp + 2)
      && Spilled(m'.mem, FrameAt(m)) && At(m'.mem, cur) == m.esp - 4
      && forall a | !(m.esp - 4 <= a < m.esp) && a != cur :: At(m'.mem, a) == At(m.mem, a)
  {
    hide Exec, Do, At, Spilled;
    var m1 := DoLoad(m, 1, Esp, Ecx, 6);
    var m2 := DoLoad(m1, 2, Esp, Edx, 5);
    PushesAndStore(m2);
    SpillMemory(m.mem, FrameAt(m), cur);
  }

  lemma SwapJumps(m: Machine)
    requires m.eip == SWAP_CONTEXT + 7
    requires !(m.ecx + 1 == m.edx || m.ecx + 1 == m.edx + 1)
    ensures
      var m' := Exec(m, 4);
      && m'.esp == At(m.mem, m.edx) && m'.eip == At(m.mem, m.edx + 1)
      && (m.ecx + 1 != At(m.mem, m.edx) - 1 ==> At(m'.mem, m.ecx + 1) == RESUMED)
      && forall a | a != m.ecx + 1 && a != At(m.mem, m.edx) - 1 :: At(m'.mem, a) == At(m.mem, a)
  {
    hide Exec, Do;
    var m1 := DoLoad(m, 0, Edx, Esp, 3);
    var m2 := DoStoreImm(m1, RESUMED, 1, Ecx, 2);
    var m3 := DoPushMem(m2, 1, Edx, 1);
    var m4 := DoRet(m3, 0);
    Done(m4);
  }

  lemma SwitchJumps(m: Machine)
    requires m.eip == SWITCH_CONTEXT
    ensures
      var m' := Exec(m, 4);
      var target := At(m.mem, m.esp + 1);
      && m'.esp == At(m.mem, target) && m'.eip == At(m.mem, target + 1)
      && forall a | a != At(m.mem, target) - 1 :: At(m'.mem, a) == At(m.mem, a)
  {
    hide Exec, Do;
    var m1 := DoLoad(m, 1, Esp, Edx, 3);
    var m2 := DoLoad(m1, 0, Edx, Esp, 2);
    var m3 := DoPushMem(m2, 1, Edx, 1);
    var m4 := DoRet(m3, 0);
    Done(m4);
  }

  /** The caller of the swap sees its registers as they were and its return address taken off the stack. */
  predicate Restored(m: Machine, f: Frame) {
    (m.ebp, m.ebx, m.esi, m.edi, m.esp, m.eip) == (f.ebp, f.ebx, f.esi, f.edi, f.esp + 1, f.ret)
  }

  lemma ResumedReturns(m: Machine, f: Frame)
    requires m.eip == RESUMED && m.esp == f.esp - 4 && Spilled(m.mem, f)
    ensures Restored(Exec(m, 5), f) && Exec(m, 5).mem == m.mem
  {
    hide Exec, Do;
    var m1 := DoPop(m, Edi, 4);
    var m2 := DoPop(m1, Esi, 3);
    var m3 := DoPop(m2, Ebx, 2);
    var m4 := DoPop(m3, Ebp, 1);
    var m5 := DoRet(m4, 0);
    Done(m5);
  }

  /** `func` is entered with `arg` as its argument, an empty frame chain, and a return address at which
      the thread exits. */
  predicate Entered(m: Machine, func: int, arg: int, top: int) {
    && m.eip == func && m.ebp == 0 && m.esp == top - 3
    && Code(At(m.mem, m.esp)) == Some(CallTo(THREAD_EXIT)) && At(m.mem, m.esp + 1) == arg && At(m.mem, m.esp + 2) == 0
  }

  /** When the function returns there, the exit is called. */
  lemma ReturnExits(m: Machine)
    requires Code(m.eip) == Some(CallTo(THREAD_EXIT))
    ensures
      var m' := Exec(m, 1);
      && m'.eip == THREAD_EXIT && m'.esp == m.esp - 1 && At(m'.mem, m'.esp) == m.eip + 1
      && forall a | a != m.esp - 1 :: At(m'.mem, a) == At(m.mem, a)
  {
    One(m, CallTo(THREAD_EXIT), 0);
    Done(Do(m, CallTo(THREAD_EXIT)));
  }

  function BounceTo(mem: Memory, e: int, arg: int): Memory {
    mem[e + 1 := 0][e := arg][e - 1 := BOUNCER + 6]
  }

  lemma BounceMemory(mem: Memory, e: int, arg: int)
    ensures var mem' := BounceTo(mem, e, arg);
      && At(mem', e - 1) == BOUNCER + 6 && At(mem', e) == arg && At(mem', e + 1) == 0
      && forall a | !(e - 1 <= a < e + 2) :: At(mem', a) == At(mem, a)
  {
  }

  lemma BouncerRuns(m: Machine)
    requires m.eip == BOUNCER
    ensures
      var arg, func := At(m.mem, m.esp), At(m.mem, m.esp + 1);
      Exec(m, 6) == m.(eax := arg, ebx := func, ebp := 0, esp := m.esp - 1, eip := func,
                       mem := BounceTo(m.mem, m.esp, arg))
  {
    hide Exec, Do, At;
    var m1 := DoPop(m, Eax, 5);
    var m2 := DoPop(m1, Ebx, 4);
    var m3 := DoPushImm(m2, 0, 3);
    var m4 := DoXor(m3, Ebp, 2);
    var m5 := DoPush(m4, Eax, 1);
    var m6 := DoCallReg(m5, Ebx, 0);
    Done(m6);
  }

  lemma BouncerEnters(m: Machine, func: int, arg: int)
    requires m.eip == BOUNCER && At(m.mem, m.esp) == arg && At(m.mem, m.esp + 1) == func
    ensures Entered(Exec(m, 6), func, arg, m.esp + 2)
    ensures forall a | !(m.esp - 1 <= a < m.esp + 2) :: At(Exec(m, 6).mem, a) == At(m.mem, a)
  {
    hide Exec, At, BounceTo;
    BouncerRuns(m);
    BounceMemory(m.mem, m.esp, arg);
  }

  // ---------- Threads with their own stacks ----------

  /** What a thread's context and stack hold: nothing while it runs, the registers it called the swap
      with, or the function it has yet to be started with. */
  datatype Saved = Active | Suspended(frame: Frame) | Fresh(func: int, arg: int)

  /** The stack is the words from `lo` up to, not including, `hi`; `ctx` and the next word are the context. */
  datatype Thread = Thread(ctx: int, lo: int, hi: int, saved: Saved)

  datatype System = System(m: Machine, run: Tid, threads: map<Tid, Thread>)

  predicate Apart(t: Thread, u: Thread) {
    && (t.hi <= u.lo || u.hi <= t.lo) && (t.ctx + 1 < u.ctx || u.ctx + 1 < t.ctx)
    && (u.ctx + 1 < t.lo || t.hi <= u.ctx) && (t.ctx + 1 < u.lo || u.hi <= t.ctx)
  }

  predicate OwnLayout(t: Thread) { t.lo < t.hi && (t.ctx + 1 < t.lo || t.hi <= t.ctx) }

  ghost predicate Layout(threads: map<Tid, Thread>) {
    && (forall t | t in threads :: OwnLayout(threads[t]))
    && forall t, u | t in threads && u in threads && t != u :: Apart(threads[t], threads[u])
  }

  /** The context and the stack of a thread that does not run are as it left them. There is always room
      for one more word, which the switch pushes. */
  predicate Keeps(mem: Memory, t: Thread) {
    match t.saved
    case Active => false
    case Suspended(f) =>
      && t.lo <= f.esp - 5 && f.esp < t.hi && At(mem, t.ctx) == f.esp - 4 && At(mem, t.ctx + 1) == RESUMED
      && Spilled(mem, f)
    case Fresh(func, arg) =>
      && t.lo <= t.hi - 3 && At(mem, t.ctx) == t.hi - 2 && At(mem, t.ctx + 1) == BOUNCER
      && At(mem, t.hi - 2) == arg && At(mem, t.hi - 1) == func
  }

  ghost predicate Inv(s: System) {
    && Layout(s.threads) && s.run in s.threads && s.threads[s.run].saved == Active
    && forall t | t in s.threads && t != s.run :: Keeps(s.m.mem, s.threads[t])
  }

  /** Words that belong to thread `t`: its stack and its context. */
  predicate Owns(t: Thread, a: int) { t.lo <= a < t.hi || t.ctx <= a < t.ctx + 2 }

  /** `m` is a state the running thread's own code can get to: registers and other memory may be
      anything, but the stacks and contexts of the other threads are left alone. */
  ghost predicate Reached(s: System, m: Machine) {
    forall t, a | t in s.threads && t != s.run && Owns(s.threads[t], a) :: At(m.mem, a) == At(s.m.mem, a)
  }

  lemma KeepsFrame(t: Thread, mem: Memory, mem': Memory)
    requires OwnLayout(t) && Keeps(mem, t) && forall a | Owns(t, a) :: At(mem', a) == At(mem, a)
    ensures Keeps(mem', t)
  {
  }

  // ---------- Events ----------

  /** The running thread, having got to machine state `at`, calls the swap to thread `u`, or exits to it, or
      creates a thread with the given context and stack. */
  datatype Event =
    | Swap(at: Machine, u: Tid)
    | Exit(at: Machine, u: Tid)
    | Create(at: Machine, t: Tid, ctx: int, lo: int, hi: int, func: int, arg: int)

  ghost predicate Enabled(s: System, e: Event) {
    && s.run in s.threads && Reached(s, e.at)
    && match e
       case Swap(m, u) =>
         var r := s.threads[s.run];
         && u in s.threads && u != s.run && m.eip == SWAP_CONTEXT && r.lo <= m.esp - 5 && m.esp + 2 < r.hi
         && At(m.mem, m.esp + 1) == r.ctx && At(m.mem, m.esp + 2) == s.threads[u].ctx
       case Exit(m, u) =>
         u in s.threads && u != s.run && m.eip == SWITCH_CONTEXT && At(m.mem, m.esp + 1) == s.threads[u].ctx
       case Create(m, t, ctx, lo, hi, func, arg) =>
         && t !in s.threads && lo <= hi - 4 && OwnLayout(Thread(ctx, lo, hi, Fresh(func, arg)))
         && forall u | u in s.threads :: Apart(s.threads[u], Thread(ctx, lo, hi, Fresh(func, arg)))
  }

  /** The library's `stack_push`: the new top of the stack, and the memory. */
  function StackPush(top: int, v: int, mem: Memory): (int, Memory) {
    (top - 1, mem[top - 1 := v])
  }

  /** What creating a thread writes: its context's address at the base of its stack, the function and
      its argument on top, and the context itself. */
  function Prepared(mem: Memory, ctx: int, lo: int, hi: int, func: int, arg: int): Memory {
    var (top1, mem1) := StackPush(hi, func, mem[lo := ctx]);
    var (top2, mem2) := StackPush(top1, arg, mem1);
    mem2[ctx := top2][ctx + 1 := BOUNCER]
  }

  /** How many instructions the library executes after the jump to a thread: those behind the swap's
      label, or those of the bouncer. */
  function Landing(saved: Saved): nat {
    match saved
    case Active => 0
    case Suspended(_) => 5
    case Fresh(_, _) => 6
  }

  function Step(s: System, e: Event): System
    requires s.run in s.threads && (e.Create? || e.u in s.threads)
  {
    match e
    case Swap(m, u) =>
      System(Exec(m, 11 + Landing(s.threads[u].saved)), u,
             s.threads[s.run := s.threads[s.run].(saved := Suspended(FrameAt(m)))]
                      [u := s.threads[u].(saved := Active)])
    case Exit(m, u) =>
      System(Exec(m, 4 + Landing(s.threads[u].saved)), u, s.threads[u := s.threads[u].(saved := Active)] - {s.run})
    case Create(m, t, ctx, lo, hi, func, arg) =>
      System(m.(mem := Prepared(m.mem, ctx, lo, hi, func, arg)), s.run,
             s.threads[t := Thread(ctx, lo, hi, Fresh(func, arg))])
  }

  // ---------- A landing ----------

  /** The thread jumped to goes on as if its own call of the swap had returned, or starts in its function. */
  predicate Landed(m: Machine, t: Thread) {
    match t.saved
    case Active => false
    case Suspended(f) => Restored(m, f)
    case Fresh(func, arg) => Entered(m, func, arg, t.hi)
  }

  /** From the jump on: `mem` is the memory before the switch pushed its word. */
  lemma Lands(m: Machine, t: Thread, mem: Memory)
    requires OwnLayout(t) && Keeps(mem, t) && m.esp == At(mem, t.ctx) && m.eip == At(mem, t.ctx + 1)
    requires forall a | Owns(t, a) && a != m.esp - 1 :: At(m.mem, a) == At(mem, a)
    ensures Landed(Exec(m, Landing(t.saved)), t)
    ensures forall a | !(t.lo <= a < t.hi) :: At(Exec(m, Landing(t.saved)).mem, a) == At(m.mem, a)
  {
    hide Exec, At;
    match t.saved
    case Suspended(f) => ResumedReturns(m, f);
    case Fresh(func, arg) => BouncerEnters(m, func, arg);
  }

  lemma SwapLands(s: System, m: Machine, u: Tid)
    requires Inv(s) && Enabled(s, Swap(m, u))
    ensures
      var r, t := s.threads[s.run], s.threads[u];
      var m' := Exec(m, 11 + Landing(t.saved));
      && Landed(m', t) && Keeps(m'.mem, r.(saved := Suspended(FrameAt(m))))
      && forall a | !Owns(r, a) && !Owns(t, a) :: At(m'.mem, a) == At(m.mem, a)
  {
    hide Exec, At, Spilled, Keeps, Landed;
    var r, t := s.threads[s.run], s.threads[u];
    assert Apart(r, t);
    KeepsFrame(t, s.m.mem, m.mem);
    SwapSpills(m, r.ctx);
    var m7 := Exec(m, 7);
    KeepsFrame(t, m.mem, m7.mem);
    StackAddresses(t, m7.mem);
    SwapJumps(m7);
    var m11 := Exec(m7, 4);
    Lands(m11, t, m7.mem);
    ExecAdd(m, 7, 4);
    ExecAdd(m, 11, Landing(t.saved));
    FrameKept(FrameAt(m), r, m7.mem, Exec(m11, Landing(t.saved)).mem);
  }

  /** The word the switch pushes goes onto the target's stack. */
  lemma StackAddresses(t: Thread, mem: Memory)
    requires Keeps(mem, t)
    ensures t.lo <= At(mem, t.ctx) - 1 < t.hi
  {
  }

  lemma FrameKept(f: Frame, r: Thread, mem: Memory, mem': Memory)
    requires Spilled(mem, f) && r.lo <= f.esp - 5 && f.esp < r.hi && OwnLayout(r)
    requires At(mem, r.ctx) == f.esp - 4 && At(mem', r.ctx + 1) == RESUMED
    requires forall a | Owns(r, a) && a != r.ctx + 1 :: At(mem', a) == At(mem, a)
    ensures Keeps(mem', r.(saved := Suspended(f)))
  {
  }

  lemma ExitLands(s: System, m: Machine, u: Tid)
    requires Inv(s) && Enabled(s, Exit(m, u))
    ensures
      var t := s.threads[u];
      var m' := Exec(m, 4 + Landing(t.saved));
      Landed(m', t) && forall a | !Owns(t, a) :: At(m'.mem, a) == At(m.mem, a)
  {
    hide Exec, At, Spilled;
    var t := s.threads[u];
    KeepsFrame(t, s.m.mem, m.mem);
    StackAddresses(t, m.mem);
    SwitchJumps(m);
    Lands(Exec(m, 4), t, m.mem);
    ExecAdd(m, 4, Landing(t.saved));
  }

  /** Nobody's words are anybody else's. */
  lemma OwnedOnce(t: Thread, u: Thread, a: int)
    requires Apart(t, u) && Owns(t, a)
    ensures !Owns(u, a)
  {
  }

  lemma OthersKept(s: System, mem: Memory, x: Tid)
    requires Inv(s) && x in s.threads && x != s.run
    requires forall a | Owns(s.threads[x], a) :: At(mem, a) == At(s.m.mem, a)
    ensures Keeps(mem, s.threads[x])
  {
    hide At, Spilled;
    KeepsFrame(s.threads[x], s.m.mem, mem);
  }

  lemma SwapKeeps(s: System, m: Machine, u: Tid)
    requires Inv(s) && Enabled(s, Swap(m, u))
    ensures Inv(Step(s, Swap(m, u)))
  {
    hide Exec, At, Keeps, Landed, Owns, Apart;
    SwapLands(s, m, u);
    var s' := Step(s, Swap(m, u));
    LayoutSame(s.threads, s'.threads);
    forall x | x in s.threads && x != s.run && x != u ensures Keeps(s'.m.mem, s.threads[x]) {
      forall a | Owns(s.threads[x], a) ensures At(s'.m.mem, a) == At(s.m.mem, a) {
        OwnedOnce(s.threads[x], s.threads[s.run], a);
        OwnedOnce(s.threads[x], s.threads[u], a);
      }
      OthersKept(s, s'.m.mem, x);
    }
  }

  /** The layout depends on where contexts and stacks are, not on what they hold. */
  lemma LayoutSame(ts: map<Tid, Thread>, us: map<Tid, Thread>)
    requires Layout(ts) && us.Keys <= ts.Keys && forall t | t in us :: us[t].(saved := ts[t].saved) == ts[t]
    ensures Layout(us)
  {
    forall t, u | t in us && u in us && t != u ensures Apart(us[t], us[u]) {
      assert Apart(ts[t], ts[u]);
    }
  }

  lemma ExitKeeps(s: System, m: Machine, u: Tid)
    requires Inv(s) && Enabled(s, Exit(m, u))
    ensures Inv(Step(s, Exit(m, u)))
  {
    hide Exec, At, Keeps, Landed, Owns, Apart;
    ExitLands(s, m, u);
    var s' := Step(s, Exit(m, u));
    LayoutSame(s.threads, s'.threads);
    forall x | x in s.threads && x != s.run && x != u ensures Keeps(s'.m.mem, s.threads[x]) {
      forall a | Owns(s.threads[x], a) ensures At(s'.m.mem, a) == At(s.m.mem, a) {
        OwnedOnce(s.threads[x], s.threads[u], a);
      }
      OthersKept(s, s'.m.mem, x);
    }
  }

  lemma PreparedKeeps(mem: Memory, t: Thread, func: int, arg: int)
    requires OwnLayout(t) && t.lo <= t.hi - 4 && t.saved == Fresh(func, arg)
    ensures var mem' := Prepared(mem, t.ctx, t.lo, t.hi, func, arg);
      && Keeps(mem', t) && At(mem', t.lo) == t.ctx
      && forall a | !Owns(t, a) || t.lo < a < t.hi - 2 :: At(mem', a) == At(mem, a)
  {
  }

  lemma CreateKeeps(s: System, e: Event)
    requires Inv(s) && Enabled(s, e) && e.Create?
    ensures Inv(Step(s, e))
  {
    hide At, Keeps, Prepared;
    var s' := Step(s, e);
    var t := Thread(e.ctx, e.lo, e.hi, Fresh(e.func, e.arg));
    PreparedKeeps(e.at.mem, t, e.func, e.arg);
    LayoutMore(s.threads, e.t, t);
    hide Owns, Apart;
    forall x | x in s.threads && x != s.run ensures Keeps(s'.m.mem, s.threads[x]) {
      forall a | Owns(s.threads[x], a) ensures At(s'.m.mem, a) == At(s.m.mem, a) {
        OwnedOnce(s.threads[x], t, a);
      }
      OthersKept(s, s'.m.mem, x);
    }
  }

  lemma LayoutMore(ts: map<Tid, Thread>, id: Tid, t: Thread)
    requires Layout(ts) && id !in ts && OwnLayout(t) && forall u | u in ts :: Apart(ts[u], t)
    ensures Layout(ts[id := t])
  {
    var us := ts[id := t];
    forall a, b | a in us && b in us && a != b ensures Apart(us[a], us[b]) {
      if a != id && b != id { assert Apart(ts[a], ts[b]); }
    }
  }

  lemma StepKeeps(s: System, e: Event)
    requires Inv(s) && Enabled(s, e)
    ensures Inv(Step(s, e))
  {
    hide Inv, Step, Enabled;
    match e
    case Swap(m, u) => SwapKeeps(s, m, u);
    case Exit(m, u) => ExitKeeps(s, m, u);
    case Create(_, _, _, _, _, _, _) => CreateKeeps(s, e);
  }

  /** At first only the boot thread is there, and it runs. */
  lemma StartKeeps(m: Machine, ctx: int, lo: int, hi: int)
    requires OwnLayout(Thread(ctx, lo, hi, Active))
    ensures Inv(System(m, BOOT, map[BOOT := Thread(ctx, lo, hi, Active)]))
  {
  }

  // ---------- Whole runs ----------

  ghost predicate CanRun(s: System, es: seq<Event>)
    decreases |es|
  {
    es == [] || (Enabled(s, es[0]) && CanRun(Step(s, es[0]), es[1..]))
  }

  ghost function After(s: System, es: seq<Event>): System
    requires CanRun(s, es)
    decreases |es|
  {
    if es == [] then s else After(Step(s, es[0]), es[1..])
  }

  /** The threads the events switch to. */
  predicate Dispatches(e: Event, t: Tid) { !e.Create? && e.u == t }

  /** While nobody switches to a thread its context stands for the same registers. */
  lemma {:induction false} FrameStays(s: System, es: seq<Event>, t: Tid)
    requires Inv(s) && CanRun(s, es) && t in s.threads && t != s.run
    requires forall e | e in es :: !Dispatches(e, t)
    ensures
      var s' := After(s, es);
      Inv(s') && t in s'.threads && t != s'.run && s'.threads[t] == s.threads[t]
    decreases |es|
  {
    hide Inv, Reached, Exec, At, Apart;
    if es != [] {
      assert es[0] in es;
      StepKeeps(s, es[0]);
      RunKnown(s);
      FrameStays(Step(s, es[0]), es[1..], t);
    }
  }

  lemma RunKnown(s: System)
    requires Inv(s)
    ensures s.run in s.threads
  {
  }

  /** A call of the swap returns with the caller's registers, stack and return address as they were,
      whatever threads are created, exit and switch to each other in between. */
  lemma SwapReturns(s: System, m: Machine, u: Tid, es: seq<Event>, back: Event)
    requires Inv(s) && Enabled(s, Swap(m, u)) && u != s.run && CanRun(Step(s, Swap(m, u)), es)
    requires forall e | e in es :: !Dispatches(e, s.run)
    requires Enabled(After(Step(s, Swap(m, u)), es), back) && Dispatches(back, s.run)
    ensures
      var s' := Step(After(Step(s, Swap(m, u)), es), back);
      && s'.run == s.run && s'.m.ebp == m.ebp && s'.m.ebx == m.ebx && s'.m.esi == m.esi && s'.m.edi == m.edi
      && s'.m.esp == m.esp + 1 && s'.m.eip == At(m.mem, m.esp)
  {
    hide Inv, Exec, At, Reached;
    RunKnown(s);
    StepKeeps(s, Swap(m, u));
    var s1 := Step(s, Swap(m, u));
    FrameStays(s1, es, s.run);
    Dispatched(After(s1, es), back);
  }

  lemma Dispatched(s: System, e: Event)
    requires Inv(s) && Enabled(s, e) && !e.Create?
    ensures e.u in s.threads && Landed(Step(s, e).m, s.threads[e.u])
  {
    hide Inv, Exec, At, Landed;
    match e
    case Swap(m, u) => SwapLands(s, m, u);
    case Exit(m, u) => ExitLands(s, m, u);
  }

  /** The first switch to a created thread, however late, calls its function with its argument, on an
      otherwise empty stack. */
  lemma FirstDispatch(s: System, c: Event, es: seq<Event>, first: Event)
    requires Inv(s) && Enabled(s, c) && c.Create? && CanRun(Step(s, c), es)
    requires forall e | e in es :: !Dispatches(e, c.t)
    requires Enabled(After(Step(s, c), es), first) && Dispatches(first, c.t)
    ensures
      var s' := Step(After(Step(s, c), es), first);
      s'.run == c.t && Entered(s'.m, c.func, c.arg, c.hi)
  {
    hide Inv, Exec, At, Entered;
    RunKnown(s);
    assert c.t != s.run;
    StepKeeps(s, c);
    FrameStays(Step(s, c), es, c.t);
    Dispatched(After(Step(s, c), es), first);
  }
}
