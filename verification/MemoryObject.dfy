/**
 * Physical memory, the kernel's heap and all address spaces as objects that are changed in place: what each call
 * of the kernel does to them is a step of `MemorySystem.Next`, and so keeps the accounts of every frame.
 */
module MemoryObject {
  import opened Common
  import opened FrameOwnership
  import opened PageTables
  import opened AddressSpaces
  import opened KernelBreak
  import opened ProgramImage
  import opened MemorySystem

  /** What the kernel is asked for, or a user program does; numbers the kernel takes from elsewhere are inputs. */
  datatype Ask =
    | AskInit(pid: nat, li: LoadInfo, readsOk: bool)
    | AskFork(pid: nat, child: nat, pidOk: bool)
    | AskExec(pid: nat, li: LoadInfo, readsOk: bool)
    | AskBrk(pid: nat, addr: int)
    | AskFault(pid: nat, addr: int)
    | AskExit(pid: nat)
    | AskDestroy(pid: nat)
    | AskKernelBrk(top: nat)
    | AskStore(pid: nat, page: nat, bytes: Page)

  /** The call an ask becomes with its answer. */
  function Call(ask: Ask, ok: bool, result: Loading): MemCall {
    match ask
    case AskInit(p, li, _) => CallInit(p, li)
    case AskFork(p, c, pidOk) => CallFork(p, c, pidOk, ok)
    case AskExec(p, li, readsOk) => CallExec(p, li, readsOk, result)
    case AskBrk(p, addr) => CallBrk(p, addr, ok)
    case AskFault(p, addr) => CallFault(p, addr, ok)
    case AskExit(p) => CallExit(p)
    case AskDestroy(p) => CallDestroy(p)
    case AskKernelBrk(top) => CallKernelBrk(top, ok)
    case AskStore(p, i, bytes) => Store(p, i, bytes)
  }

  /** The image of init fits and can be read, and there are frames for it and its kernel stack: else the kernel panics. */
  predicate InitGoesOn(m: MemState, li: LoadInfo, readsOk: bool) {
    Fits(li) && readsOk && KSTACK_PAGES + FramesNeeded(li) <= |FreeFrames(m.frames)|
  }

  /** Two address spaces with nothing in common. */
  predicate Disjoint(a: AddressSpace, b: AddressSpace) {
    a != b && a.table != b.table && a.kstack != b.kstack
  }

  /** The objects memory is made of are distinct, and all in `repr`. */
  ghost predicate Placed(mem: PhysicalMemory, heap: KernelHeap, spaces: map<nat, AddressSpace>, repr: set<object>) {
    && mem.frames in repr && mem.pages in repr && heap in repr && heap.table in repr
    && (forall p :: p in spaces ==>
          spaces[p] in repr && spaces[p].table in repr && spaces[p].kstack in repr && spaces[p].table != heap.table)
    && (forall p, q :: p in spaces && q in spaces && p != q ==> Disjoint(spaces[p], spaces[q]))
  }

  lemma PlacedParts(mem: PhysicalMemory, heap: KernelHeap, spaces: map<nat, AddressSpace>, repr: set<object>)
    requires Placed(mem, heap, spaces, repr)
    ensures mem.frames in repr && mem.pages in repr && heap in repr && heap.table in repr
  {
  }

  lemma PlacedAt(mem: PhysicalMemory, heap: KernelHeap, spaces: map<nat, AddressSpace>, repr: set<object>, p: nat)
    requires Placed(mem, heap, spaces, repr) && p in spaces
    ensures spaces[p] in repr && spaces[p].table in repr && spaces[p].kstack in repr && spaces[p].table != heap.table
    ensures forall q :: q in spaces && q != p ==> Disjoint(spaces[p], spaces[q])
  {
  }

  class Memory {
    const mem: PhysicalMemory
    const heap: KernelHeap
    /** The address spaces, by pid, and the processes that are zombies or were killed. */
    var spaces: map<nat, AddressSpace>
    var dead: set<nat>
    /** The spaces as values, and the objects they are made of. */
    ghost var world: World
    ghost var Repr: set<object>
    ghost const reserved: set<nat>

    ghost function State(): MemState
      reads this, mem.frames, mem.pages, heap, heap.table
    {
      MemState(mem.frames[..], mem.pages[..], world, heap.State(), dead)
    }

    /** `world` says what is in the address spaces. */
    ghost predicate Mirrored()
      requires Placed(mem, heap, spaces, Repr)
      reads this`spaces, this`world, this`Repr, Repr
    {
      world.Keys == spaces.Keys && forall p :: p in spaces ==> spaces[p].State() == world[p]
    }

    ghost predicate Arranged()
      reads this, Repr
    {
      Placed(mem, heap, spaces, Repr) && this !in Repr && Mirrored()
    }

    ghost predicate Valid()
      reads this, Repr
    {
      Arranged() && MemRight(State(), reserved)
    }

    /** What boot hands over: reserved frames, and the frames of the kernel's heap. */
    constructor (mem: PhysicalMemory, heap: KernelHeap, ghost reserved: set<nat>)
      requires mem.Valid() && ZeroTaken(heap.State(), reserved) && HeapRight(heap.State()) && Owns(mem.frames[..], HeapSlots(heap.State()))
      requires reserved !! HeldBy(HeapSlots(heap.State()))
      requires Allocated(mem.frames[..]) == reserved + HeldBy(HeapSlots(heap.State()))
      ensures Valid() && this.mem == mem && this.heap == heap && this.reserved == reserved && Repr == {mem.frames, mem.pages, heap, heap.table}
      ensures State() == MemState(mem.frames[..], mem.pages[..], map[], heap.State(), {})
    {
      this.mem, this.heap, this.reserved := mem, heap, reserved;
      spaces, world, dead := map[], map[], {};
      Repr := {mem.frames, mem.pages, heap, heap.table};
      new;
      RightAtBoot(mem.frames[..], mem.pages[..], heap.State(), reserved);
    }

    /** One address space has changed; `world` follows. */
    ghost method Mirror(p: nat, proc: AddressSpace, s: Space)
      requires Placed(mem, heap, spaces, Repr) && this !in Repr && p in spaces && spaces[p] == proc && proc.State() == s
      requires world.Keys == spaces.Keys && forall q :: q in spaces && q != p ==> spaces[q].State() == world[q]
      modifies this`world
      ensures Arranged() && world == old(world)[p := s]
    {
      hide AddressSpace.State, Placed;
      world := world[p := s];
    }

    /** A new address space joins. */
    method Join(p: nat, proc: AddressSpace, ghost s: Space)
      requires Arranged() && p !in spaces && proc.State() == s
      requires {proc as object, proc.table, proc.kstack} !! Repr && this !in {proc as object, proc.table, proc.kstack}
      modifies this`spaces, this`world, this`Repr
      ensures Arranged() && spaces == old(spaces)[p := proc] && world == old(world)[p := s]
      ensures Repr == old(Repr) + {proc, proc.table, proc.kstack}
    {
      hide AddressSpace.State, Placed;
      PlacedWith(mem, heap, spaces, Repr, p, proc);
      spaces, world := spaces[p := proc], world[p := s];
      Repr := Repr + {proc, proc.table, proc.kstack};
    }

    /** An address space leaves. */
    method Leave(p: nat)
      requires Placed(mem, heap, spaces, Repr) && this !in Repr && p in spaces
      requires world.Keys == spaces.Keys && forall q :: q in spaces && q != p ==> spaces[q].State() == world[q]
      modifies this`spaces, this`world
      ensures Arranged() && spaces == old(spaces) - {p} && world == old(world) - {p}
    {
      hide AddressSpace.State, Placed;
      PlacedWithout(mem, heap, spaces, Repr, p);
      spaces, world := spaces - {p}, world - {p};
    }

    /** SysBrk of one process leaves the other objects alone. */
    method BrkOf(p: nat, proc: AddressSpace, addr: int) returns (rc: int)
      requires Arranged() && p in spaces && spaces[p] == proc && Layout(world[p]) && Owns(mem.frames[..], SlotsOf(world[p]))
      modifies mem.frames, proc.table, proc`brk, this`world
      ensures Arranged() && heap.State() == old(heap.State()) && world == old(world)[p := world[p]]
      ensures rc == SUCCESS || rc == ERROR
      ensures rc == ERROR ==> world[p] == old(world[p]) && mem.frames[..] == old(mem.frames[..])
      ensures rc == SUCCESS ==> BrkMoved(old(world[p]), addr, world[p]) && BreakCovers(world[p], addr)
      ensures rc == SUCCESS <==>
        && old(world[p]).heapStart <= addr < VMEM_1_LIMIT && UpPage(addr) < old(world[p]).stackLow
        && UpPage(addr) <= UpPage(old(world[p]).brk) + |FreeFrames(old(mem.frames[..]))|
      ensures Lawful(old(mem.frames[..]), SlotsOf(old(world[p])), mem.frames[..], SlotsOf(world[p]))
    {
      hide AddressSpace.State, KernelHeap.State, Placed, Layout, Owns, SlotsOf, BrkMoved, BreakCovers, UpPage,
        FreeFrames, Lawful;
      PlacedAt(mem, heap, spaces, Repr, p);
      SpaceIs(proc);
      HeapStartIsSet(world[p]);
      rc := proc.SysBrk(mem, addr);
      SpaceIs(proc);
      forall q | q in spaces && q != p ensures spaces[q].State() == world[q] {
        assert Disjoint(proc, spaces[q]);
      }
      Mirror(p, proc, proc.State());
    }

    /** ProcessGrowStack of one process leaves the other objects alone. */
    method FaultOf(p: nat, proc: AddressSpace, addr: int) returns (rc: int)
      requires Arranged() && p in spaces && spaces[p] == proc && Layout(world[p]) && Owns(mem.frames[..], SlotsOf(world[p]))
      modifies mem.frames, proc.table, proc`stackLow, this`world
      ensures Arranged() && heap.State() == old(heap.State()) && world == old(world)[p := world[p]]
      ensures rc == SUCCESS || rc == ERROR
      ensures rc == SUCCESS <==>
        && VMEM_1_BASE <= addr < VMEM_1_LIMIT && UpPage(old(world[p]).brk) < DownPage(addr) < old(world[p]).stackLow
        && old(world[p]).stackLow <= DownPage(addr) + |FreeFrames(old(mem.frames[..]))|
      ensures if rc == SUCCESS then StackGrown(old(world[p]), DownPage(addr), world[p]) else StackStuck(old(world[p]), world[p])
      ensures rc == SUCCESS ==> StackCovers(world[p], addr)
      ensures Lawful(old(mem.frames[..]), SlotsOf(old(world[p])), mem.frames[..], SlotsOf(world[p]))
    {
      hide AddressSpace.State, KernelHeap.State, Placed, Layout, Shaped, Owns, SlotsOf, StackGrown, StackCovers,
        StackStuck,
        UpPage, DownPage, FreeFrames, Lawful;
      PlacedAt(mem, heap, spaces, Repr, p);
      SpaceIs(proc);
      rc := proc.GrowStack(mem, addr);
      forall q | q in spaces && q != p ensures spaces[q].State() == world[q] {
        assert Disjoint(proc, spaces[q]);
      }
      Mirror(p, proc, proc.State());
    }

    /** LoadProgram for one process leaves the other objects alone. */
    method LoadOf(p: nat, proc: AddressSpace, li: LoadInfo, readsOk: bool) returns (r: Loading)
      requires Arranged() && p in spaces && spaces[p] == proc && Shaped(world[p]) && Owns(mem.frames[..], SlotsOf(world[p]))
      requires WellFormed(li)
      modifies mem.frames, proc.table, proc`heapStart, proc`brk, proc`stackLow, this`world
      ensures Arranged() && heap.State() == old(heap.State()) && world == old(world)[p := world[p]]
      ensures r == Refused <==> !Fits(li)
      ensures r == Refused ==> world[p] == old(world[p]) && mem.frames[..] == old(mem.frames[..])
      ensures r == Loaded <==> Fits(li) && readsOk && FramesNeeded(li) <= |FreeFrames(old(mem.frames[..]))| + |Pages(old(world[p]).table)|
      ensures r == Loaded ==> HasImage(world[p], li)
      ensures Shaped(world[p]) && Lawful(old(mem.frames[..]), SlotsOf(old(world[p])), mem.frames[..], SlotsOf(world[p]))
    {
      hide AddressSpace.State, KernelHeap.State, Placed, Shaped, Owns, SlotsOf, Fits, FramesNeeded, FreeFrames,
        Pages, Lawful;
      hide WellFormed, MapsTwice, Overlaps, FirstMapped, ImageMapped, PagesLoaded;
      PlacedAt(mem, heap, spaces, Repr, p);
      SpaceIs(proc);
      r := LoadProgram(mem, proc, li, readsOk);
      LoadIsLawful(li, |FreeFrames(old(mem.frames[..]))| + |Pages(old(world[p]).table)|);
      SpaceIs(proc);
      forall q | q in spaces && q != p ensures spaces[q].State() == world[q] {
        assert Disjoint(proc, spaces[q]);
      }
      Mirror(p, proc, proc.State());
    }

    /** The memory part of ProcessDestroy, and the process is gone. */
    method GoneOf(p: nat, proc: AddressSpace)
      requires Arranged() && p in spaces && spaces[p] == proc && Shaped(world[p]) && Owns(mem.frames[..], SlotsOf(world[p]))
      modifies mem.frames, proc.table, proc.kstack, this`world, this`spaces
      ensures Arranged() && heap.State() == old(heap.State()) && world == old(world) - {p}
      ensures Emptied(old(mem.frames[..]), old(world[p]), mem.frames[..])
    {
      hide AddressSpace.State, KernelHeap.State, Placed, Shaped, Owns, SlotsOf, Emptied;
      PlacedAt(mem, heap, spaces, Repr, p);
      DestroySpace(mem, proc);
      forall q | q in spaces && q != p ensures spaces[q].State() == world[q] {
        assert Disjoint(proc, spaces[q]);
      }
      Leave(p);
    }

    /**
     * ProcessCreateChild: the child joins, or everything is as it was but for the contents of free frames and the
     * scratch page's entry.
     */
    method ChildFor(p: nat, c: nat, pidOk: bool) returns (ok: bool)
      requires Arranged() && p in spaces && c !in spaces && Layout(world[p]) && Owns(mem.frames[..], SlotsOf(world[p]))
      requires mem.Valid() && mem.frames.Length > 0 && mem.frames[0] && heap.table.Length > 0
      modifies mem.frames, mem.pages, heap.table, this`spaces, this`world, this`Repr
      ensures Arranged() && fresh(Repr - old(Repr)) && heap.State() == old(heap.State()).(table := heap.State().table)
      ensures ScratchLeft(old(mem.frames[..]), old(heap.State()).table, heap.State().table, pidOk, ok)
      ensures ok <==> pidOk && KSTACK_PAGES + |Pages(old(world[p]).table)| <= |FreeFrames(old(mem.frames[..]))|
      ensures PagesKept(old(mem.frames[..]), old(mem.pages[..]), mem.pages[..])
      ensures !ok ==> world == old(world) && mem.frames[..] == old(mem.frames[..])
      ensures ok ==> c in world && world == old(world)[c := world[c]] && ChildOf(old(world[p]), world[c], mem.pages[..])
      ensures ok ==> Lawful(old(mem.frames[..]), [], mem.frames[..], SlotsOf(world[c]))
    {
      hide AddressSpace.State, KernelHeap.State, Placed, Layout, Owns, SlotsOf, FreeFrames, Pages, PagesKept, Copied,
        Lawful;
      PlacedAt(mem, heap, spaces, Repr, p);
      PlacedParts(mem, heap, spaces, Repr);
      SpaceIs(spaces[p]);
      HeapIs(heap);
      var child := CreateChild(mem, spaces[p], heap.table, pidOk);
      HeapIs(heap);
      forall q | q in spaces ensures spaces[q].State() == world[q] {
        PlacedAt(mem, heap, spaces, Repr, q);
      }
      if child == null {
        return false;
      }
      SpaceIs(child);
      LayoutShaped(child.State());
      Join(c, child, child.State());
      ok := true;
    }

    /** ProcessCreateInit and the first LoadProgram: init joins, unless memory does not suffice and the kernel panics. */
    method InitFor(p: nat, li: LoadInfo, readsOk: bool) returns (ok: bool)
      requires Arranged() && p !in spaces && mem.frames.Length > 0 && mem.frames[0] && WellFormed(li)
      modifies mem.frames, this`spaces, this`world, this`Repr
      ensures ok <==> Fits(li) && readsOk && KSTACK_PAGES + FramesNeeded(li) <= |FreeFrames(old(mem.frames[..]))|
      ensures ok ==> Arranged() && fresh(Repr - old(Repr)) && heap.State() == old(heap.State())
      ensures ok ==> p in world && world == old(world)[p := world[p]]
      ensures ok ==> Fits(li) && HasImage(world[p], li) && Shaped(world[p])
      ensures ok ==> Lawful(old(mem.frames[..]), [], mem.frames[..], SlotsOf(world[p]))
    {
      hide AddressSpace.State, KernelHeap.State, Placed, Layout, Shaped, SlotsOf, WellFormed, Fits, HasImage,
        FramesNeeded,
        FreeFrames, Lawful;
      PlacedParts(mem, heap, spaces, Repr);
      var init := CreateInit(mem, li, readsOk);
      if init == null {
        return false;
      }
      forall q | q in spaces ensures spaces[q].State() == world[q] {
      }
      Join(p, init, init.State());
      ok := true;
    }

    /** SetKernelBrk leaves the address spaces alone. */
    method HeapBrk(top: nat) returns (rc: int)
      requires Arranged() && HeapRight(heap.State()) && Owns(mem.frames[..], HeapSlots(heap.State()))
      modifies mem.frames, heap.table, heap`brkPage
      ensures Arranged() && (rc == SUCCESS || rc == ERROR)
      ensures rc == ERROR ==> heap.State() == old(heap.State()) && mem.frames[..] == old(mem.frames[..])
      ensures var page := Requested(top, old(heap.State()).origBrk);
        && (rc == SUCCESS ==> HeapMoved(old(heap.State()), page, heap.State()) && HeapCovers(heap.State(), top))
        && (rc == SUCCESS <==> page <= |old(heap.State()).table| && page <= old(heap.State()).brkPage + |FreeFrames(old(mem.frames[..]))|)
      ensures Lawful(old(mem.frames[..]), HeapSlots(old(heap.State())), mem.frames[..], HeapSlots(heap.State()))
    {
      hide AddressSpace.State, Placed, HeapRight, Owns, HeapSlots, HeapMoved, HeapCovers, Requested, FreeFrames,
        Lawful;
      rc := heap.SetKernelBrk(mem, top);
      forall q | q in spaces ensures spaces[q].State() == world[q] {
        PlacedAt(mem, heap, spaces, Repr, q);
      }
    }

    // ---------- the calls ----------

    /** SysBrk */
    method Brk(p: nat, addr: int) returns (ok: bool)
      requires Valid() && Live(State(), p)
      modifies this, Repr
      ensures Valid() && fresh(Repr - old(Repr)) && Next(old(State()), CallBrk(p, addr, ok), State())
    {
      hide MemRight, Placed, Mirrored, KernelHeap.State, Layout, Shaped, Owns, SlotsOf, HeapSlots, BrkMoved,
        BreakCovers, UpPage,
        FreeFrames, Lawful;
      ghost var m := State();
      RightOf(m, reserved);
      WorldKeys();
      var rc := BrkOf(p, spaces[p], addr);
      ok := rc == SUCCESS;
      NextKeeps(m, CallBrk(p, addr, ok), State(), reserved);
    }

    /** ProcessGrowStack; a process whose stack cannot grow exits (src/trap.c:67-86). */
    method Fault(p: nat, addr: int) returns (ok: bool)
      requires Valid() && Live(State(), p)
      modifies this, Repr
      ensures Valid() && fresh(Repr - old(Repr)) && Next(old(State()), CallFault(p, addr, ok), State())
    {
      hide MemRight, Placed, Mirrored, KernelHeap.State, Layout, Shaped, Owns, SlotsOf, HeapSlots, StackGrown,
        StackCovers,
        StackStuck, UpPage, DownPage, FreeFrames, Lawful;
      ghost var m := State();
      RightOf(m, reserved);
      WorldKeys();
      var rc := FaultOf(p, spaces[p], addr);
      ok := rc == SUCCESS;
      if !ok {
        dead := dead + {p};
      }
      NextKeeps(m, CallFault(p, addr, ok), State(), reserved);
    }

    /** LoadProgram for Exec; a process whose program is gone exits. */
    method Exec(p: nat, li: LoadInfo, readsOk: bool) returns (r: Loading)
      requires Valid() && Live(State(), p) && WellFormed(li)
      modifies this, Repr
      ensures Valid() && fresh(Repr - old(Repr)) && Next(old(State()), CallExec(p, li, readsOk, r), State())
    {
      hide MemRight, Placed, Mirrored, KernelHeap.State, Layout, Shaped, Owns, SlotsOf, HeapSlots, WellFormed, Fits,
        FramesNeeded, HasImage, FreeFrames, Pages, Lawful, Untouched;
      ghost var m := State();
      RightOf(m, reserved);
      WorldKeys();
      r := LoadOf(p, spaces[p], li, readsOk);
      if r == Kill {
        dead := dead + {p};
      }
      NothingTouched(m.frames, SlotsOf(m.world[p]), m.pages);
      NextKeeps(m, CallExec(p, li, readsOk, r), State(), reserved);
    }

    /** ProcessExitCurrent takes nothing from a process: its frames go back when it is reaped. */
    method Exit(p: nat)
      requires Valid() && p in spaces
      modifies this, Repr
      ensures Valid() && fresh(Repr - old(Repr)) && Next(old(State()), CallExit(p), State())
    {
      hide MemRight, Placed, Mirrored, KernelHeap.State;
      ghost var m := State();
      WorldKeys();
      dead := dead + {p};
      NextKeeps(m, CallExit(p), State(), reserved);
    }

    /** ProcessDestroy, of a zombie that is reaped or of a child whose fork is undone. */
    method Destroy(p: nat)
      requires Valid() && p in spaces
      modifies this, Repr
      ensures Valid() && fresh(Repr - old(Repr)) && Next(old(State()), CallDestroy(p), State())
    {
      hide MemRight, Placed, Mirrored, KernelHeap.State, Layout, Shaped, Owns, SlotsOf, HeapSlots, Emptied;
      ghost var m := State();
      RightOf(m, reserved);
      WorldKeys();
      GoneOf(p, spaces[p]);
      dead := dead - {p};
      NextKeeps(m, CallDestroy(p), State(), reserved);
    }

    /** ProcessCreateChild */
    method Fork(p: nat, c: nat, pidOk: bool) returns (ok: bool)
      requires Valid() && Possible(State(), CallFork(p, c, pidOk, false))
      modifies this, Repr
      ensures Arranged() && fresh(Repr - old(Repr)) && Next(old(State()), CallFork(p, c, pidOk, ok), State())
      ensures Valid() <==> !MapsOverHeap(old(State()), CallFork(p, c, pidOk, ok))
    {
      hide MemRight, Placed, Mirrored, KernelHeap.State, Layout, Owns, SlotsOf, HeapSlots, ChildOf, PagesKept,
        Untouched, FreeFrames, Pages, Lawful;
      ghost var m := State();
      RightOf(m, reserved);
      WorldKeys();
      SameLengths();
      HeapIs(heap);
      ScratchIsThere(m.heap);
      ok := ChildFor(p, c, pidOk);
      KeptUntouched(m.frames, m.pages, mem.pages[..]);
      NextKeeps(m, CallFork(p, c, pidOk, ok), State(), reserved);
    }

    /** ProcessCreateInit and the first LoadProgram; the kernel panics unless ok. */
    method Init(p: nat, li: LoadInfo, readsOk: bool) returns (ok: bool)
      requires Valid() && Possible(State(), CallInit(p, li))
      modifies this, Repr
      ensures ok <==> InitGoesOn(old(State()), li, readsOk)
      ensures ok ==> Valid() && fresh(Repr - old(Repr)) && Next(old(State()), CallInit(p, li), State())
    {
      hide MemRight, Placed, Mirrored, KernelHeap.State, Shaped, SlotsOf, HeapSlots, WellFormed, Fits, HasImage,
        FramesNeeded, FreeFrames, Lawful;
      ghost var m := State();
      RightOf(m, reserved);
      WorldKeys();
      ok := InitFor(p, li, readsOk);
      if ok {
        NextKeeps(m, CallInit(p, li), State(), reserved);
      }
    }

    /** SetKernelBrk */
    method KernelBrk(top: nat) returns (ok: bool)
      requires Valid()
      modifies this, Repr
      ensures Valid() && fresh(Repr - old(Repr)) && Next(old(State()), CallKernelBrk(top, ok), State())
    {
      hide MemRight, Placed, Mirrored, KernelHeap.State, HeapRight, Owns, HeapSlots, HeapMoved, HeapCovers, Requested,
        FreeFrames, Lawful;
      ghost var m := State();
      RightOf(m, reserved);
      WorldKeys();
      var rc := HeapBrk(top);
      ok := rc == SUCCESS;
      NextKeeps(m, CallKernelBrk(top, ok), State(), reserved);
    }

    /** A user program writes a page of its own; the hardware goes by the page table. */
    method UserStore(p: nat, i: nat, bytes: Page)
      requires Valid() && Possible(State(), Store(p, i, bytes))
      modifies this, Repr
      ensures Valid() && fresh(Repr - old(Repr)) && Next(old(State()), Store(p, i, bytes), State())
    {
      hide MemRight, Placed, AddressSpace.State, KernelHeap.State;
      ghost var m := State();
      WorldKeys();
      SpaceIs(spaces[p]);
      mem.pages[spaces[p].table[i].pfn] := bytes;
      NextKeeps(m, Store(p, i, bytes), State(), reserved);
    }

    /**
     * One ask, any ask: memory steps as `Next` says, and every frame keeps its one owner, except if a fork maps its
     * copies over the kernel's heap.
     */
    method Dispatch(ask: Ask) returns (goesOn: bool, ok: bool, result: Loading)
      requires Valid() && Possible(State(), Call(ask, false, Refused))
      modifies this, Repr
      ensures goesOn ==> Arranged() && fresh(Repr - old(Repr)) && Next(old(State()), Call(ask, ok, result), State())
      ensures goesOn ==> (Valid() <==> !MapsOverHeap(old(State()), Call(ask, ok, result)))
      ensures goesOn <==> (ask.AskInit? ==> InitGoesOn(old(State()), ask.li, ask.readsOk))
    {
      hide Next, MemRight, Placed, Mirrored;
      WorldKeys();
      goesOn, ok, result := true, false, Refused;
      match ask {
        case AskInit(p, li, readsOk) => goesOn := Init(p, li, readsOk);
        case AskFork(p, c, pidOk) => ok := Fork(p, c, pidOk);
        case AskExec(p, li, readsOk) => result := Exec(p, li, readsOk);
        case AskBrk(p, addr) => ok := Brk(p, addr);
        case AskFault(p, addr) => ok := Fault(p, addr);
        case AskExit(p) => Exit(p);
        case AskDestroy(p) => Destroy(p);
        case AskKernelBrk(top) => ok := KernelBrk(top);
        case AskStore(p, i, bytes) => UserStore(p, i, bytes);
      }
    }

    lemma WorldKeys()
      requires Arranged()
      ensures world.Keys == spaces.Keys && mem.frames in Repr && mem.pages in Repr && heap in Repr && heap.table in Repr
      ensures forall p :: p in spaces ==> spaces[p] in Repr && spaces[p].table in Repr && spaces[p].kstack in Repr
    {
    }

    lemma SameLengths()
      requires |State().pages| == |State().frames|
      ensures mem.Valid()
    {
    }
  }

  /** What was allocated kept its contents: nothing outside an owner of nothing was touched. */
  lemma KeptUntouched(frames: seq<bool>, pages: seq<Page>, pages': seq<Page>)
    requires PagesKept(frames, pages, pages')
    ensures Untouched(frames, [], pages, pages')
  {
  }

  /** A well-formed program's pages are never mapped twice. */
  lemma LoadIsLawful(li: LoadInfo, frames: nat)
    requires WellFormed(li)
    ensures Fits(li) ==> !MapsTwice(li, PagesLoaded(li, frames))
  {
    if Fits(li) {
      WellFormedApart(li);
      NothingTwice(li, PagesLoaded(li, frames));
    }
  }

  lemma PlacedWithout(mem: PhysicalMemory, heap: KernelHeap, spaces: map<nat, AddressSpace>, repr: set<object>, p: nat)
    requires Placed(mem, heap, spaces, repr)
    ensures Placed(mem, heap, spaces - {p}, repr)
  {
  }

  lemma PlacedWith(mem: PhysicalMemory, heap: KernelHeap, spaces: map<nat, AddressSpace>, repr: set<object>, p: nat, proc: AddressSpace)
    requires Placed(mem, heap, spaces, repr) && p !in spaces && {proc as object, proc.table, proc.kstack} !! repr
    ensures Placed(mem, heap, spaces[p := proc], repr + {proc, proc.table, proc.kstack})
  {
    assert proc !in repr && proc.table !in repr && proc.kstack !in repr;
  }

  lemma SpaceIs(space: AddressSpace)
    ensures var s := space.State();
      && s.table == space.table[..] && s.kstack == space.kstack[..]
      && s.brk == space.brk && s.heapStart == space.heapStart && s.stackLow == space.stackLow
  {
  }

  lemma HeapIs(heap: KernelHeap)
    ensures heap.State() == Heap(heap.table[..], heap.brkPage, heap.origBrk)
  {
  }

  lemma ScratchIsThere(h: Heap)
    requires HeapRight(h)
    ensures |h.table| > 0
  {
  }

  lemma HeapStartIsSet(s: Space)
    requires Layout(s)
    ensures s.heapStart != 0
  {
    MulMono(0, UpPage(s.heapStart), PAGESIZE);
  }
}
