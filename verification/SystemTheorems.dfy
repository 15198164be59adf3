/**
 * Processes and memory together. The process half of the kernel asks the memory half for an address space when it
 * forks, marks it when a process exits, and gives it back when a zombie is reaped. Over every run of both, the
 * processes other than idle are exactly the owners of address spaces, and the dead ones are exactly the zombies.
 */
module SystemTheorems {
  import opened Common
  import opened KernelState
  import opened KernelSteps
  import opened KernelInvariants
  import RunTheorems
  import opened PopulationTheorems
  import opened FrameOwnership
  import opened PageTables
  import opened AddressSpaces
  import KernelBreak
  import ProgramImage
  import opened MemorySystem

  /** The whole kernel. */
  datatype System = System(kernel: Kernel, mem: MemState)

  /**
   * A step of the process half, with what it asks of memory; something the running program does to its own memory;
   * something of that kind it does not survive; or a move of the kernel's own break.
   */
  datatype SysEvent =
    | InKernel(e: Event, pidOk: bool)
    | OnMemory(call: MemCall)
    | Fatal(call: MemCall)
    | MovesBreak(top: nat, ok: bool)

  /** The running program execs, moves its break, grows its stack or stores. */
  predicate Own(k: Kernel, call: MemCall) {
    && k.current != k.idle && !MustResume(k)
    && match call
       case CallExec(p, _, _, _) => p == k.current
       case CallBrk(p, _, _) => p == k.current
       case CallFault(p, _, _) => p == k.current
       case Store(p, _, _) => p == k.current
       case _ => false
  }

  /** The old program is gone and the new one not there, or the stack could not grow: the process exits. */
  predicate Kills(call: MemCall) {
    (call.CallExec? && call.result == ProgramImage.Kill) || (call.CallFault? && !call.ok)
  }

  /** What a step of the process half asks of memory. A fork that cannot copy the kernel context destroys its child. */
  ghost predicate MemorySide(k: Kernel, e: Event, pidOk: bool, m: MemState, m': MemState) {
    if e.EvFork? && k.current != k.idle then
      exists m1 :: Next(m, CallFork(k.current, e.child, pidOk, e.made), m1) && AfterFork(e, m1, m')
    else if e.EvExit? then Next(m, CallExit(k.current), m')
    else if ReapedBy(k, e).Some? then Next(m, CallDestroy(ReapedBy(k, e).value), m')
    else m' == m
  }

  ghost predicate AfterFork(e: Event, m1: MemState, m': MemState)
    requires e.EvFork?
  {
    if e.made && !e.cloned then Next(m1, CallDestroy(e.child), m') else m' == m1
  }

  ghost predicate SysNext(x: System, ev: SysEvent, x': System) {
    match ev
    case InKernel(e, pidOk) => Legal(x.kernel, e) && x'.kernel == Step(x.kernel, e) && MemorySide(x.kernel, e, pidOk, x.mem, x'.mem)
    case OnMemory(call) => Own(x.kernel, call) && !Kills(call) && x'.kernel == x.kernel && Next(x.mem, call, x'.mem)
    case Fatal(call) =>
      && Own(x.kernel, call) && Kills(call) && Legal(x.kernel, EvExit(ERROR)) && x'.kernel == Step(x.kernel, EvExit(ERROR))
      && Next(x.mem, call, x'.mem)
    case MovesBreak(top, ok) => x'.kernel == x.kernel && Next(x.mem, CallKernelBrk(top, ok), x'.mem)
  }

  /** Every process but idle has an address space and nobody else has; the dead are the zombies. */
  ghost predicate InStep(k: Kernel, m: MemState) {
    && m.world.Keys == k.procs.Keys - {k.idle} && m.dead <= m.world.Keys
    && forall p :: p in m.world ==> (p in m.dead <==> k.procs[p].state.Zombie?)
  }

  ghost predicate SysRight(x: System, reserved: set<nat>) {
    Inv(x.kernel) && MemRight(x.mem, reserved) && InStep(x.kernel, x.mem)
  }

  /** The step is a fork that maps its copies over the kernel's heap. */
  predicate OverwritesHeap(x: System, ev: SysEvent) {
    && ev.InKernel? && ev.e.EvFork? && x.kernel.current != x.kernel.idle
    && MapsOverHeap(x.mem, CallFork(x.kernel.current, ev.e.child, ev.pidOk, ev.e.made))
  }

  // ---------- the address spaces and the dead ----------

  /** Who has an address space after a call, and who is dead. */
  function WorldAfter(m: MemState, call: MemCall): set<nat> {
    match call
    case CallInit(p, _) => m.world.Keys + {p}
    case CallFork(_, c, _, ok) => m.world.Keys + (if ok then {c} else {})
    case CallDestroy(p) => m.world.Keys - {p}
    case _ => m.world.Keys
  }

  function DeadAfter(m: MemState, call: MemCall): set<nat> {
    match call
    case CallExec(p, _, _, _) => m.dead + (if Kills(call) then {p} else {})
    case CallFault(p, _, _) => m.dead + (if Kills(call) then {p} else {})
    case CallExit(p) => m.dead + {p}
    case CallDestroy(p) => m.dead - {p}
    case _ => m.dead
  }

  lemma NextPeople(m: MemState, call: MemCall, m': MemState)
    requires Next(m, call, m') && m.dead <= m.world.Keys
    ensures m'.world.Keys == WorldAfter(m, call) && m'.dead == DeadAfter(m, call)
  {
    hide Lawful, Shaped, Untouched, ScratchLeft, HasImage, ChildOf, BrkMoved, BreakCovers, StackGrown, StackCovers,
      StackStuck, Emptied,
      FreeFrames, Pages, SlotsOf,
      KernelBreak.HeapMoved, KernelBreak.HeapCovers, KernelBreak.HeapSlots, KernelBreak.Requested, ProgramImage.Fits, ProgramImage.WellFormed, UpPage, DownPage;
  }

  // ---------- every step ----------

  /** The caller is a live process with an address space. */
  lemma CallerLives(k: Kernel, m: MemState)
    requires Inv(k) && InStep(k, m) && k.current != k.idle
    ensures Live(m, k.current)
  {
    hide Inv;
    IdleIsNone(k);
    CurrentIsNone(k);
  }

  lemma ForkInStep(k: Kernel, e: Event, pidOk: bool, m: MemState, m1: MemState, m': MemState)
    requires Inv(k) && InStep(k, m) && Legal(k, e) && e.EvFork? && k.current != k.idle
    requires Next(m, CallFork(k.current, e.child, pidOk, e.made), m1) && AfterFork(e, m1, m')
    ensures InStep(Step(k, e), m')
  {
    hide Inv, Step, Next, MapsOverHeap, FirstZombie;
    StepPeopled(k, e);
    SameIdle(k, e);
    IdleIsNone(k);
    LegalChild(k, e);
    NextPeople(m, CallFork(k.current, e.child, pidOk, e.made), m1);
    if e.made && !e.cloned {
      NextPeople(m1, CallDestroy(e.child), m');
    }
  }

  lemma LegalChild(k: Kernel, e: Event)
    requires Legal(k, e) && e.EvFork?
    ensures e.child !in k.procs
  {
  }

  lemma SameIdle(k: Kernel, e: Event)
    requires Inv(k) && Legal(k, e)
    ensures Step(k, e).idle == k.idle
  {
    hide Inv, Step, Legal, Lost, RunTheorems.Reschedules;
    RunTheorems.StepKept(k, e);
  }

  /** What exits is dead, what is reaped is gone, and no other step of the process half matters. */
  lemma CallInStep(k: Kernel, e: Event, pidOk: bool, m: MemState, m': MemState)
    requires Inv(k) && InStep(k, m) && Legal(k, e) && MemorySide(k, e, pidOk, m, m') && !(e.EvFork? && k.current != k.idle)
    ensures InStep(Step(k, e), m')
  {
    hide Inv, Step, Next, Legal, ReapedBy;
    StepPeopled(k, e);
    SameIdle(k, e);
    IdleIsNone(k);
    ExitReapsNobody(k, e);
    if e.EvExit? {
      NextPeople(m, CallExit(k.current), m');
    } else if ReapedBy(k, e).Some? {
      NextPeople(m, CallDestroy(ReapedBy(k, e).value), m');
    }
  }

  lemma ExitReapsNobody(k: Kernel, e: Event)
    ensures e.EvExit? ==> ReapedBy(k, e).None? && (Legal(k, e) ==> k.current != k.idle)
    ensures !(e.EvFork? && k.current != k.idle) ==> !Bears(k, e)
  {
  }

  lemma FatalInStep(k: Kernel, call: MemCall, m: MemState, m': MemState)
    requires Inv(k) && InStep(k, m) && Legal(k, EvExit(ERROR)) && Own(k, call) && Kills(call) && Next(m, call, m')
    ensures InStep(Step(k, EvExit(ERROR)), m')
  {
    hide Inv, Step, Next, Legal, ReapedBy;
    StepPeopled(k, EvExit(ERROR));
    SameIdle(k, EvExit(ERROR));
    IdleIsNone(k);
    ExitReapsNobody(k, EvExit(ERROR));
    NextPeople(m, call, m');
  }

  lemma OwnInStep(k: Kernel, call: MemCall, m: MemState, m': MemState)
    requires InStep(k, m) && Next(m, call, m') && (Own(k, call) || call.CallKernelBrk?) && !Kills(call)
    ensures InStep(k, m')
  {
    hide Next, MustResume;
    NextPeople(m, call, m');
  }

  /** A fork keeps the frame accounts exactly if it maps nothing over the heap, even if it is undone. */
  lemma ForkRight(k: Kernel, e: Event, pidOk: bool, m: MemState, m1: MemState, m': MemState, reserved: set<nat>)
    requires MemRight(m, reserved) && e.EvFork?
    requires Next(m, CallFork(k.current, e.child, pidOk, e.made), m1) && AfterFork(e, m1, m')
    ensures MemRight(m', reserved) <==> !MapsOverHeap(m, CallFork(k.current, e.child, pidOk, e.made))
  {
    hide MemRight, Next, MapsOverHeap;
    var call := CallFork(k.current, e.child, pidOk, e.made);
    NextKeeps(m, call, m1, reserved);
    if e.made && !e.cloned {
      if MapsOverHeap(m, call) {
        OverHeap(m, reserved, k.current, e.child, pidOk, e.made, m1);
        BreakOnTop(m, k.current, e.child, pidOk, e.made);
        DestroyKeepsHeap(m1, e.child, m');
        NotRightAnyMore(m', reserved);
      } else {
        NextKeeps(m1, CallDestroy(e.child), m', reserved);
        NotAFork(m1, CallDestroy(e.child));
      }
    }
  }

  lemma DestroyKeepsHeap(m: MemState, p: nat, m': MemState)
    requires Next(m, CallDestroy(p), m')
    ensures m'.heap == m.heap
  {
    hide Emptied;
  }

  lemma NotAFork(m: MemState, call: MemCall)
    requires !call.CallFork?
    ensures !MapsOverHeap(m, call)
  {
  }

  /** One step of the whole kernel keeps processes and memory in step, and the frame accounts unless a fork maps over the heap. */
  lemma SysKept(x: System, ev: SysEvent, x': System, reserved: set<nat>)
    requires SysRight(x, reserved) && SysNext(x, ev, x')
    ensures Inv(x'.kernel) && InStep(x'.kernel, x'.mem)
    ensures SysRight(x', reserved) <==> !OverwritesHeap(x, ev)
  {
    hide Inv, MemRight, InStep, Next, Legal, Step, MapsOverHeap, AfterFork, Own, Kills, ReapedBy, RunTheorems.Stepped;
    var k, m, m' := x.kernel, x.mem, x'.mem;
    match ev {
      case InKernel(e, pidOk) =>
        RunTheorems.StepKept(k, e);
        if e.EvFork? && k.current != k.idle {
          var m1 :| Next(m, CallFork(k.current, e.child, pidOk, e.made), m1) && AfterFork(e, m1, m');
          ForkInStep(k, e, pidOk, m, m1, m');
          ForkRight(k, e, pidOk, m, m1, m', reserved);
        } else {
          CallInStep(k, e, pidOk, m, m');
          if e.EvExit? {
            OtherCallRight(m, CallExit(k.current), m', reserved);
          } else if ReapedBy(k, e).Some? {
            OtherCallRight(m, CallDestroy(ReapedBy(k, e).value), m', reserved);
          }
        }
      case OnMemory(call) =>
        OwnInStep(k, call, m, m');
        OwnIsNoFork(k, call);
        OtherCallRight(m, call, m', reserved);
      case Fatal(call) =>
        RunTheorems.StepKept(k, EvExit(ERROR));
        FatalInStep(k, call, m, m');
        OwnIsNoFork(k, call);
        OtherCallRight(m, call, m', reserved);
      case MovesBreak(top, ok) =>
        KillsNobody(top, ok);
        OwnInStep(k, CallKernelBrk(top, ok), m, m');
        OtherCallRight(m, CallKernelBrk(top, ok), m', reserved);
    }
  }

  lemma KillsNobody(top: nat, ok: bool)
    ensures !Kills(CallKernelBrk(top, ok))
  {
  }

  lemma OwnIsNoFork(k: Kernel, call: MemCall)
    requires Own(k, call)
    ensures !call.CallFork?
  {
  }

  lemma OtherCallRight(m: MemState, call: MemCall, m': MemState, reserved: set<nat>)
    requires MemRight(m, reserved) && Next(m, call, m') && !call.CallFork?
    ensures MemRight(m', reserved)
  {
    hide MemRight, Next, MapsOverHeap;
    NotAFork(m, call);
    NextKeeps(m, call, m', reserved);
  }

  // ---------- runs of the whole kernel ----------

  /** xs are the states a run of the whole kernel goes through. */
  ghost predicate SysRun(xs: seq<System>, evs: seq<SysEvent>) {
    |xs| == |evs| + 1 && forall i :: 0 <= i < |evs| ==> SysNext(xs[i], evs[i], xs[i + 1])
  }

  ghost predicate NoneOverwrites(xs: seq<System>, evs: seq<SysEvent>)
    requires |xs| > |evs|
  {
    forall i :: 0 <= i < |evs| ==> !OverwritesHeap(xs[i], evs[i])
  }

  lemma RestOfSysRun(xs: seq<System>, evs: seq<SysEvent>)
    requires SysRun(xs, evs) && evs != []
    ensures SysNext(xs[0], evs[0], xs[1]) && SysRun(xs[1..], evs[1..])
    ensures NoneOverwrites(xs, evs) <==> !OverwritesHeap(xs[0], evs[0]) && NoneOverwrites(xs[1..], evs[1..])
  {
    hide SysNext, OverwritesHeap;
    var rest, later := xs[1..], evs[1..];
    assert forall i :: 0 < i < |evs| ==> xs[i] == rest[i - 1] && evs[i] == later[i - 1];
    forall i | 0 <= i < |later| ensures SysNext(rest[i], later[i], rest[i + 1]) && rest[i] == xs[i + 1] && later[i] == evs[i + 1] {
      assert SysNext(xs[i + 1], evs[i + 1], xs[i + 2]);
    }
  }

  lemma RightFromNext(xs: seq<System>, reserved: set<nat>)
    requires |xs| > 1 && SysRight(xs[0], reserved)
    ensures (forall i :: 0 <= i < |xs| ==> SysRight(xs[i], reserved))
       <==> (forall i :: 0 <= i < |xs[1..]| ==> SysRight(xs[1..][i], reserved))
  {
    hide SysRight;
    var rest := xs[1..];
    assert forall i :: 0 < i < |xs| ==> xs[i] == rest[i - 1];
    assert forall i :: 0 <= i < |rest| ==> rest[i] == xs[i + 1];
  }

  /**
   * Over any run of the whole kernel: every state has its processes and its address spaces in step and every frame
   * with one owner, exactly if no fork of the run maps its copies over the kernel's heap.
   */
  lemma {:induction false} EverySysRunKeeps(xs: seq<System>, evs: seq<SysEvent>, reserved: set<nat>)
    requires SysRun(xs, evs) && SysRight(xs[0], reserved)
    ensures (forall i :: 0 <= i < |xs| ==> SysRight(xs[i], reserved)) <==> NoneOverwrites(xs, evs)
    decreases |evs|
  {
    hide SysNext, SysRight, OverwritesHeap;
    if evs != [] {
      hide NoneOverwrites;
      RestOfSysRun(xs, evs);
      SysKept(xs[0], evs[0], xs[1], reserved);
      RightFromNext(xs, reserved);
      if SysRight(xs[1], reserved) {
        EverySysRunKeeps(xs[1..], evs[1..], reserved);
      }
    }
  }

  /** When KernelStart has made init and left for its program, processes and memory are in step. */
  lemma BootRight(k: Kernel, m0: MemState, li: ProgramImage.LoadInfo, m: MemState, reserved: set<nat>)
    requires Booted(k) && MemRight(m0, reserved) && m0.world == map[] && Next(m0, CallInit(k.init, li), m)
    ensures SysRight(System(k, m), reserved)
  {
    hide Inv, Next, MemRight;
    RunTheorems.BootInv(k);
    NoneDead(m0, reserved);
    NextPeople(m0, CallInit(k.init, li), m);
    OtherCallRight(m0, CallInit(k.init, li), m, reserved);
  }

  lemma NoneDead(m: MemState, reserved: set<nat>)
    requires MemRight(m, reserved) && m.world == map[]
    ensures m.dead == {}
  {
    hide Partition, KernelBreak.HeapRight, Shaped, Layout;
  }

  // ---------- what that means ----------

  /**
   * Whatever the process half asks of memory can be done: the caller of a fork or an exit is live, the child's pid has
   * no address space, and whoever is reaped has one, and is dead.
   */
  lemma KernelAsksPossible(x: System, e: Event, pidOk: bool, reserved: set<nat>)
    requires SysRight(x, reserved) && Legal(x.kernel, e)
    ensures e.EvFork? && x.kernel.current != x.kernel.idle ==> Possible(x.mem, CallFork(x.kernel.current, e.child, pidOk, e.made))
    ensures e.EvExit? ==> Possible(x.mem, CallExit(x.kernel.current))
    ensures ReapedBy(x.kernel, e).Some? ==>
      Possible(x.mem, CallDestroy(ReapedBy(x.kernel, e).value)) && ReapedBy(x.kernel, e).value in x.mem.dead
  {
    hide Inv, MemRight, ReapedBy, Legal, Step, Peopled;
    StepPeopled(x.kernel, e);
    ExitReapsNobody(x.kernel, e);
    if x.kernel.current != x.kernel.idle {
      CallerLives(x.kernel, x.mem);
    }
    if e.EvFork? {
      LegalChild(x.kernel, e);
    }
  }

  /** Who holds an allocated frame that is not reserved: the kernel's heap, or a process other than idle. */
  lemma HeldByProcesses(x: System, reserved: set<nat>, f: nat)
    requires SysRight(x, reserved) && f in Allocated(x.mem.frames) && f !in reserved
    ensures f in HeldBy(KernelBreak.HeapSlots(x.mem.heap)) <==>
      !exists p :: p in x.kernel.procs && p != x.kernel.idle && p in x.mem.world && f in HeldBy(SlotsOf(x.mem.world[p]))
  {
    hide Inv, KernelBreak.HeapRight, Shaped, Layout, HeldBy, Allocated, SlotsOf, KernelBreak.HeapSlots;
    var owners, world := Owners(x.mem.world, x.mem.heap), x.mem.world;
    assert owners[KERNEL_OWNER] == KernelBreak.HeapSlots(x.mem.heap);
    var o := SomeOwner(x.mem.frames, owners, reserved, f);
    if o == KERNEL_OWNER {
      forall p | p in world ensures f !in HeldBy(SlotsOf(world[p])) {
        assert p in owners && owners[p] == SlotsOf(world[p]);
        assert HeldBy(owners[p]) !! HeldBy(owners[KERNEL_OWNER]);
      }
    } else {
      assert o in world && owners[o] == SlotsOf(world[o]);
      assert HeldBy(owners[o]) !! HeldBy(owners[KERNEL_OWNER]);
      var p: Pid := o;
      assert p in x.kernel.procs && p != x.kernel.idle && f in HeldBy(SlotsOf(world[p]));
    }
  }

  /** The process whose memory the step is about, if it is a step of the running program. */
  function Doing(ev: SysEvent): Option<nat> {
    match ev
    case OnMemory(call) => Subject(call)
    case Fatal(call) => Subject(call)
    case _ => None
  }

  /** A step leaves the address space of a process that is still there alone, unless it is that process's own doing. */
  lemma UnreapedKeep(x: System, ev: SysEvent, x': System, reserved: set<nat>, p: Pid)
    requires SysRight(x, reserved) && SysNext(x, ev, x') && !OverwritesHeap(x, ev)
    requires p in x.mem.world && p in x'.kernel.procs && Doing(ev) != Some(p)
    ensures p in x'.mem.world && x'.mem.world[p] == x.mem.world[p] && Seen(x'.mem, p) == Seen(x.mem, p)
    ensures HeldBy(SlotsOf(x.mem.world[p])) <= Allocated(x'.mem.frames)
  {
    SysKept(x, ev, x', reserved);
    hide Inv, MemRight, Next, Legal, Step, MapsOverHeap, OverwritesHeap, AfterFork, Own, Kills, Seen, SlotsOf, HeldBy,
      Allocated, ReapedBy, Subject;
    var k, m, m' := x.kernel, x.mem, x'.mem;
    SameIdleThere(x, ev, x');
    assert p in m'.world;
    match ev {
      case InKernel(e, pidOk) => CallKeeps(k, e, pidOk, m, m', reserved, p);
      case OnMemory(call) => OthersSeeNothing(m, call, m', reserved, p);
      case Fatal(call) => OthersSeeNothing(m, call, m', reserved, p);
      case MovesBreak(top, ok) =>
        BreakIsNobodys(top, ok);
        OthersSeeNothing(m, CallKernelBrk(top, ok), m', reserved, p);
    }
    HeldIsAllocated(m', reserved, p);
  }

  lemma BreakIsNobodys(top: nat, ok: bool)
    ensures Subject(CallKernelBrk(top, ok)).None?
  {
  }

  lemma SameIdleThere(x: System, ev: SysEvent, x': System)
    requires Inv(x.kernel) && SysNext(x, ev, x')
    ensures x'.kernel.idle == x.kernel.idle
  {
    hide Inv, Next, Legal, Step, AfterFork, Own, Kills, ReapedBy, MemorySide;
    match ev {
      case InKernel(e, _) => SameIdle(x.kernel, e);
      case Fatal(_) => SameIdle(x.kernel, EvExit(ERROR));
      case _ =>
    }
  }

  lemma HeldIsAllocated(m: MemState, reserved: set<nat>, p: nat)
    requires MemRight(m, reserved) && p in m.world
    ensures HeldBy(SlotsOf(m.world[p])) <= Allocated(m.frames)
  {
    hide MemRight, SlotsOf, Shaped, Layout;
    RightOf(m, reserved);
  }

  /** The same of a step of the process half. */
  lemma CallKeeps(k: Kernel, e: Event, pidOk: bool, m: MemState, m': MemState, reserved: set<nat>, p: Pid)
    requires Inv(k) && MemRight(m, reserved) && InStep(k, m) && Legal(k, e) && MemorySide(k, e, pidOk, m, m')
    requires !(e.EvFork? && k.current != k.idle && MapsOverHeap(m, CallFork(k.current, e.child, pidOk, e.made)))
    requires p in m.world && p in m'.world
    ensures m'.world[p] == m.world[p] && Seen(m', p) == Seen(m, p)
  {
    hide Inv, MemRight, Next, Legal, MapsOverHeap, AfterFork, Seen, ReapedBy, Subject, InStep;
    if e.EvFork? && k.current != k.idle {
      var m1 :| Next(m, CallFork(k.current, e.child, pidOk, e.made), m1) && AfterFork(e, m1, m');
      ChildIsNew(k, e, m, p);
      ForkSubjects(k, e, pidOk, p);
      OthersSeeNothing(m, CallFork(k.current, e.child, pidOk, e.made), m1, reserved, p);
      NextKeeps(m, CallFork(k.current, e.child, pidOk, e.made), m1, reserved);
      UndoneKeeps(e, m1, m', reserved, p);
    } else if e.EvExit? {
      ExitIsNobodys(k.current);
      OthersSeeNothing(m, CallExit(k.current), m', reserved, p);
    } else if ReapedBy(k, e).Some? {
      var c := ReapedBy(k, e).value;
      GoneIsGone(m, c, m');
      OthersSeeNothing(m, CallDestroy(c), m', reserved, p);
    }
  }

  lemma ChildIsNew(k: Kernel, e: Event, m: MemState, p: Pid)
    requires InStep(k, m) && Legal(k, e) && e.EvFork? && p in m.world
    ensures p != e.child
  {
  }

  lemma ForkSubjects(k: Kernel, e: Event, pidOk: bool, p: Pid)
    requires e.EvFork? && p != e.child
    ensures Subject(CallFork(k.current, e.child, pidOk, e.made)) != Some(p) && Subject(CallDestroy(e.child)) != Some(p)
  {
  }

  lemma UndoneKeeps(e: Event, m1: MemState, m': MemState, reserved: set<nat>, p: Pid)
    requires e.EvFork? && AfterFork(e, m1, m') && MemRight(m1, reserved) && p in m1.world && p != e.child
    ensures p in m'.world && m'.world[p] == m1.world[p] && Seen(m', p) == Seen(m1, p)
  {
    hide MemRight, Next, Seen;
    if e.made && !e.cloned {
      OthersSeeNothing(m1, CallDestroy(e.child), m', reserved, p);
    }
  }

  lemma ExitIsNobodys(p: Pid)
    ensures Subject(CallExit(p)).None?
  {
  }

  lemma GoneIsGone(m: MemState, c: nat, m': MemState)
    requires Next(m, CallDestroy(c), m')
    ensures c !in m'.world && Subject(CallDestroy(c)) == Some(c)
  {
    hide Emptied;
  }

  /** Reaping a child frees exactly the frames it held. */
  lemma ReapFreesExactly(x: System, e: Event, pidOk: bool, x': System, reserved: set<nat>)
    requires SysRight(x, reserved) && SysNext(x, InKernel(e, pidOk), x') && ReapedBy(x.kernel, e).Some?
    ensures var c := ReapedBy(x.kernel, e).value;
      && c in x.mem.world && x'.mem.world == x.mem.world - {c}
      && Allocated(x'.mem.frames) == Allocated(x.mem.frames) - HeldBy(SlotsOf(x.mem.world[c]))
  {
    hide Inv, MemRight, Legal, Step, HeldBy, SlotsOf, Allocated;
    var c := ReapedBy(x.kernel, e).value;
    assert Next(x.mem, CallDestroy(c), x'.mem);
    NoneHeld([]);
    EmptiedFrees(x.mem.frames, SlotsOf(x.mem.world[c]), x'.mem.frames);
  }

  lemma EmptiedFrees(frames: seq<bool>, slots: Slots, frames': seq<bool>)
    requires Lawful(frames, slots, frames', [])
    ensures Allocated(frames') == Allocated(frames) - HeldBy(slots)
  {
  }

  /** Process p has the space s, all on allocated frames. */
  ghost predicate HasSpace(x: System, p: Pid, s: Space) {
    p in x.mem.world && x.mem.world[p] == s && HeldBy(SlotsOf(s)) <= Allocated(x.mem.frames)
  }

  /** Until it is reaped, a zombie keeps its address space as it was when it exited, whatever anybody does. */
  lemma {:induction false} ZombieKeepsMemory(xs: seq<System>, evs: seq<SysEvent>, reserved: set<nat>, p: Pid)
    requires SysRun(xs, evs) && SysRight(xs[0], reserved) && NoneOverwrites(xs, evs)
    requires p in xs[0].kernel.procs && xs[0].kernel.procs[p].state.Zombie? && forall i :: 0 <= i < |xs| ==> p in xs[i].kernel.procs
    ensures p in xs[0].mem.world && forall i :: 0 <= i < |xs| ==> HasSpace(xs[i], p, xs[0].mem.world[p])
    decreases |evs|
  {
    hide SysNext, SysRight, OverwritesHeap, HasSpace, NoneOverwrites;
    ZombieHasSpace(xs[0], reserved, p);
    if evs != [] {
      RestOfSysRun(xs, evs);
      SysKept(xs[0], evs[0], xs[1], reserved);
      assert p in xs[1].kernel.procs;
      StillZombie(xs[0], evs[0], xs[1], reserved, p);
      StaysThere(xs, p);
      ZombieKeepsMemory(xs[1..], evs[1..], reserved, p);
      forall i | 0 <= i < |xs| ensures HasSpace(xs[i], p, xs[0].mem.world[p]) {
        assert i > 0 ==> xs[i] == xs[1..][i - 1];
      }
    }
  }

  lemma StaysThere(xs: seq<System>, p: Pid)
    requires xs != [] && forall i :: 0 <= i < |xs| ==> p in xs[i].kernel.procs
    ensures forall i :: 0 <= i < |xs[1..]| ==> p in xs[1..][i].kernel.procs
  {
    assert forall i :: 0 <= i < |xs[1..]| ==> xs[1..][i] == xs[i + 1];
  }

  lemma ZombieHasSpace(x: System, reserved: set<nat>, p: Pid)
    requires SysRight(x, reserved) && p in x.kernel.procs && x.kernel.procs[p].state.Zombie?
    ensures p in x.mem.world && p != x.kernel.current && HasSpace(x, p, x.mem.world[p])
  {
    hide Inv, MemRight, SlotsOf, HeldBy, Allocated;
    IdleIsNone(x.kernel);
    CurrentIsNone(x.kernel);
    HeldIsAllocated(x.mem, reserved, p);
  }

  /** A zombie that is not reaped stays one, and the step is not its own doing. */
  lemma StillZombie(x: System, ev: SysEvent, x': System, reserved: set<nat>, p: Pid)
    requires SysRight(x, reserved) && SysNext(x, ev, x') && !OverwritesHeap(x, ev)
    requires p in x.kernel.procs && x.kernel.procs[p].state.Zombie? && p in x'.kernel.procs
    ensures x'.kernel.procs[p].state.Zombie? && p in x.mem.world && p in x'.mem.world && x'.mem.world[p] == x.mem.world[p]
  {
    ZombieHasSpace(x, reserved, p);
    NotItsDoing(x, ev, x', p);
    UnreapedKeep(x, ev, x', reserved, p);
    hide Inv, MemRight, Next, Legal, Step, OverwritesHeap, AfterFork, Own, Kills, ReapedBy, MemorySide, InStep;
    match ev {
      case InKernel(e, _) => StepPeopled(x.kernel, e);
      case Fatal(_) => StepPeopled(x.kernel, EvExit(ERROR));
      case _ =>
    }
  }

  lemma NotItsDoing(x: System, ev: SysEvent, x': System, p: Pid)
    requires SysNext(x, ev, x') && p != x.kernel.current
    ensures Doing(ev) != Some(p)
  {
    hide Next, Legal, Step, MemorySide, MustResume;
  }
}
