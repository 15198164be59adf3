/**
 * All of physical memory: the kernel's heap, the processes' address spaces, and the calls that move frames
 * between them: each on one address space in place, and as values in any order on all of them.
 */
module MemorySystem {
  import opened Common
  import opened FrameOwnership
  import opened PageTables
  import opened AddressSpaces
  import opened KernelBreak
  import opened ProgramImage

  /** Processes own frames under their pids, the kernel's heap under this number. */
  const KERNEL_OWNER: int := -1

  lemma FreshHoldsNothing(s: Space)
    requires (forall i :: 0 <= i < |s.table| ==> s.table[i] == NoPte) && forall i :: 0 <= i < |s.kstack| ==> s.kstack[i] == 0
    ensures HeldBy(SlotsOf(s)) == {}
  {
    NoneHeld(SlotsOf(s));
  }

  lemma CopiedLayout(src: Space, dst: Space, pages: seq<Page>)
    requires Layout(src) && |dst.table| == MAX_PT_LEN && |dst.kstack| == KSTACK_PAGES && Copied(src.table, dst.table, pages, MAX_PT_LEN)
    requires dst.brk == src.brk && dst.heapStart == src.heapStart && dst.stackLow == src.stackLow
    ensures Layout(dst)
  {
  }

  /**
   * The memory part of ProcessCreateChild; `pidOk` says whether there was a pid to give. A child that cannot
   * be made leaves the frame table exactly as it was, and may leave an entry in the scratch page of Region 0.
   */
  method CreateChild(mem: PhysicalMemory, parent: AddressSpace, kernel: array<Pte>, pidOk: bool) returns (child: AddressSpace?)
    requires mem.Valid() && mem.frames.Length > 0 && mem.frames[0] && kernel.Length > 0 && kernel != parent.table
    requires Layout(parent.State()) && Owns(mem.frames[..], SlotsOf(parent.State()))
    modifies mem.frames, mem.pages, kernel
    ensures child != null <==> pidOk && KSTACK_PAGES + |Pages(parent.table[..])| <= |FreeFrames(old(mem.frames[..]))|
    ensures child == null ==> mem.frames[..] == old(mem.frames[..])
    ensures ScratchLeft(old(mem.frames[..]), old(kernel[..]), kernel[..], pidOk, child != null)
    ensures PagesKept(old(mem.frames[..]), old(mem.pages[..]), mem.pages[..])
    ensures child != null ==>
      && fresh(child) && fresh(child.table) && fresh(child.kstack)
      && child.table.Length == MAX_PT_LEN && Copied(parent.table[..], child.table[..], mem.pages[..], MAX_PT_LEN) && Layout(child.State())
      && child.brk == parent.brk && child.heapStart == parent.heapStart && child.stackLow == parent.stackLow
      && Lawful(old(mem.frames[..]), [], mem.frames[..], SlotsOf(child.State()))
  {
    hide Owns, Lawful, HeldBy, Copied, ScratchUsed, LowestTaken, Layout, FreeFrames, Pages, OnLastFree;
    LayoutShaped(parent.State());
    ghost var f0 := mem.frames[..];
    child := new AddressSpace();
    ghost var empty := SlotsOf(child.State());
    FreshHoldsNothing(child.State());
    NewcomerOwns(f0, empty);
    assert child.Partial(0) == empty;
    var rc := child.AllocKernelStack(mem);
    if rc == ERROR {
      return null;
    }
    ghost var f1, s1 := mem.frames[..], child.State();
    LawfulOwns(f0, empty, f1, SlotsOf(s1));
    if !pidOk {
      child.FreeKernelStack(mem);
      LawfulTrans(f0, empty, f1, SlotsOf(s1), mem.frames[..], SlotsOf(child.State()));
      FreshHoldsNothing(child.State());
      HoldingNothing(f0, empty, mem.frames[..], SlotsOf(child.State()));
      return null;
    }
    child.brk := parent.brk;
    child.heapStart := parent.heapStart;
    child.stackLow := parent.stackLow;
    ParentStillOwns(f0, empty, f1, SlotsOf(s1), SlotsOf(parent.State()));
    rc := child.CopyRegion1(mem, parent, kernel);
    ScratchThrough(f0, f1, old(kernel[..]), kernel[..], rc == SUCCESS);
    KeptThrough(f0, empty, f1, SlotsOf(s1), old(mem.pages[..]), mem.pages[..]);
    LawfulOwns(f1, SlotsOf(s1), mem.frames[..], SlotsOf(child.State()));
    if rc == ERROR {
      child.FreeKernelStack(mem);
      LawfulTrans(f0, empty, f1, SlotsOf(s1), mem.frames[..], SlotsOf(child.State()));
      FreshHoldsNothing(child.State());
      HoldingNothing(f0, empty, mem.frames[..], SlotsOf(child.State()));
      return null;
    }
    LawfulTrans(f0, empty, f1, SlotsOf(s1), mem.frames[..], SlotsOf(child.State()));
    FromNothing(f0, empty, mem.frames[..], SlotsOf(child.State()));
    CopiedLayout(parent.State(), child.State(), mem.pages[..]);
  }

  /**
   * What a fork leaves in the pages of Region 0 below the kernel stack. A fork that succeeds unmaps the scratch page;
   * one that runs out of frames after copying some page leaves its entry on the last free frame.
   */
  ghost predicate ScratchLeft(frames: seq<bool>, kernel: seq<Pte>, kernel': seq<Pte>, pidOk: bool, ok: bool) {
    && |kernel'| == |kernel| > 0
    && var scratch := |kernel| - 1;
       if ok then kernel' == kernel[scratch := NoPte]
       else if pidOk && KSTACK_PAGES < |FreeFrames(frames)| then
         kernel' == kernel[scratch := kernel'[scratch]] && OnLastFree(frames, kernel'[scratch])
       else kernel' == kernel
  }

  lemma ScratchThrough(f0: seq<bool>, f1: seq<bool>, kernel: seq<Pte>, kernel': seq<Pte>, ok: bool)
    requires LowestTaken(f0, f1) && ScratchUsed(f1, kernel, kernel', ok) && |FreeFrames(f1)| == |FreeFrames(f0)| - KSTACK_PAGES
    ensures ScratchLeft(f0, kernel, kernel', true, ok)
  {
    hide FreeFrames, LowestTaken, OnLastFree;
    if !ok && |FreeFrames(f1)| != 0 {
      SameLastFree(f0, f1, kernel'[|kernel| - 1]);
    }
  }

  /** Whoever held nothing might as well have had no slots. */
  lemma FromNothing(frames: seq<bool>, empty: Slots, frames': seq<bool>, slots: Slots)
    requires Lawful(frames, empty, frames', slots) && HeldBy(empty) == {}
    ensures Lawful(frames, [], frames', slots)
  {
  }

  lemma NewcomerOwns(frames: seq<bool>, slots: Slots)
    requires HeldBy(slots) == {}
    ensures Owns(frames, slots)
  {
    AllHeld(slots);
  }

  lemma ParentStillOwns(f0: seq<bool>, empty: Slots, f1: seq<bool>, s1: Slots, parent: Slots)
    requires Lawful(f0, empty, f1, s1) && HeldBy(empty) == {} && Owns(f0, parent)
    ensures Owns(f1, parent)
  {
    OthersOutside(f0, empty, f1, s1, parent);
  }

  /** Contents kept for the frames allocated after the kernel stack was taken were kept for those allocated before. */
  lemma KeptThrough(f0: seq<bool>, empty: Slots, f1: seq<bool>, s1: Slots, pages: seq<Page>, pages': seq<Page>)
    requires Lawful(f0, empty, f1, s1) && HeldBy(empty) == {} && PagesKept(f1, pages, pages')
    ensures PagesKept(f0, pages, pages')
  {
    forall f | 0 <= f < |f0| && f < |pages| && f0[f] ensures pages'[f] == pages[f] {
      assert f in Allocated(f0) && f in Outside(f0, empty);
      assert f in Outside(f1, s1);
    }
  }

  // ---------- making and destroying an address space ----------

  /** ProcessCreateInit and the first LoadProgram; without the memory for them the kernel panics. */
  method CreateInit(mem: PhysicalMemory, li: LoadInfo, readsOk: bool) returns (proc: AddressSpace?)
    requires mem.frames.Length > 0 && mem.frames[0] && WellFormed(li)
    modifies mem.frames
    ensures proc != null <==> Fits(li) && readsOk && KSTACK_PAGES + FramesNeeded(li) <= |FreeFrames(old(mem.frames[..]))|
    ensures proc != null ==>
      && fresh(proc) && fresh(proc.table) && fresh(proc.kstack) && Shaped(proc.State()) && Layout(proc.State())
      && Fits(li) && HasImage(proc.State(), li)
      && Lawful(old(mem.frames[..]), [], mem.frames[..], SlotsOf(proc.State()))
  {
    hide Layout, Lawful, Owns, HeldBy, ImageMapped, Overlaps, WellFormed, FramesNeeded, FreeFrames, Pages,
      LowestTaken;
    ghost var f0 := mem.frames[..];
    proc := new AddressSpace();
    ghost var empty := SlotsOf(proc.State());
    FreshHoldsNothing(proc.State());
    NewcomerOwns(f0, empty);
    SomeNeeded(li);
    assert proc.Partial(0) == empty;
    var rc := proc.AllocKernelStack(mem);
    if rc == ERROR {
      return null;
    }
    ghost var f1, s1 := mem.frames[..], SlotsOf(proc.State());
    LawfulOwns(f0, empty, f1, s1);
    NothingMapped(proc.table[..]);
    var r := LoadProgram(mem, proc, li, readsOk);
    if r != Loaded {
      return null;
    }
    WellFormedApart(li);
    LawfulTrans(f0, empty, f1, s1, mem.frames[..], SlotsOf(proc.State()));
    FromNothing(f0, empty, mem.frames[..], SlotsOf(proc.State()));
    LoadedLayout(proc.State(), li);
  }

  lemma SomeNeeded(li: LoadInfo)
    ensures Fits(li) ==> FramesNeeded(li) >= 0
  {
  }

  lemma NothingMapped(table: seq<Pte>)
    requires forall i :: 0 <= i < |table| ==> table[i] == NoPte
    ensures |Pages(table)| == 0
  {
    assert Pages(table) == {};
  }

  /** The memory part of ProcessDestroy: what the process held is free again. */
  method DestroySpace(mem: PhysicalMemory, proc: AddressSpace)
    requires Shaped(proc.State()) && Owns(mem.frames[..], SlotsOf(proc.State()))
    modifies mem.frames, proc.table, proc.kstack
    ensures HeldBy(SlotsOf(proc.State())) == {}
    ensures Emptied(old(mem.frames[..]), old(proc.State()), mem.frames[..])
  {
    hide Lawful, Owns, HeldBy;
    ghost var f0, s0 := mem.frames[..], proc.State();
    mem.FreePageTableFrames(proc.table, StackSlots(proc.kstack[..]));
    ghost var f1, s1 := mem.frames[..], proc.State();
    LawfulOwns(f0, SlotsOf(s0), f1, SlotsOf(s1));
    proc.FreeKernelStack(mem);
    LawfulTrans(f0, SlotsOf(s0), f1, SlotsOf(s1), mem.frames[..], SlotsOf(proc.State()));
    ClearedShape(s0, s1);
    FreshHoldsNothing(proc.State());
    ToNothing(f0, SlotsOf(s0), mem.frames[..], SlotsOf(proc.State()));
  }

  lemma ToNothing(frames: seq<bool>, slots: Slots, frames': seq<bool>, empty: Slots)
    requires Lawful(frames, slots, frames', empty) && HeldBy(empty) == {}
    ensures Lawful(frames, slots, frames', [])
  {
  }

  lemma ClearedShape(s: Space, s': Space)
    requires Shaped(s) && |s'.table| == |s.table|
    requires forall i :: 0 <= i < |s.table| ==> s'.table[i] == if s.table[i].valid then NoPte else s.table[i]
    ensures forall i :: 0 <= i < |s'.table| ==> s'.table[i] == NoPte
  {
  }

  // ---------- all of memory as one value ----------

  type World = map<nat, Space>

  /** Frame table, contents of the frames, address spaces, kernel heap, and the processes that are zombies or were killed. */
  datatype MemState = MemState(frames: seq<bool>, pages: seq<Page>, world: World, heap: Heap, dead: set<nat>)

  ghost function Owners(world: World, heap: Heap): (owners: map<int, Slots>) {
    (map p: int | p in world :: SlotsOf(world[p]))[KERNEL_OWNER := HeapSlots(heap)]
  }

  /** Frame 0 is never given out: it is reserved, or a page of the kernel's image is on it. */
  ghost predicate ZeroTaken(heap: Heap, reserved: set<nat>) {
    0 in reserved || (heap.origBrk <= |heap.table| && Some(0) in TableSlots(heap.table[..heap.origBrk]))
  }

  /**
   * Every allocated frame is reserved or has exactly one owner, and every loaded live process has the right layout.
   * Frame 0 is never free: that is why ProcessFreeKernelStack may read a slot of 0 as empty.
   */
  ghost predicate MemRight(m: MemState, reserved: set<nat>) {
    && ZeroTaken(m.heap, reserved) && HeapRight(m.heap) && |m.pages| == |m.frames| && m.dead <= m.world.Keys
    && (forall p :: p in m.world ==> Shaped(m.world[p]) && (p !in m.dead ==> Layout(m.world[p])))
    && Partition(m.frames, Owners(m.world, m.heap), reserved)
  }

  lemma ZeroAllocated(frames: seq<bool>, heap: Heap, reserved: set<nat>)
    requires ZeroTaken(heap, reserved) && HeapRight(heap) && Owns(frames, HeapSlots(heap)) && reserved <= Allocated(frames)
    ensures |frames| > 0 && frames[0]
  {
    if 0 in reserved {
      assert 0 in Allocated(frames);
    } else {
      var image := TableSlots(heap.table[..heap.origBrk]);
      var i :| 0 <= i < |image| && image[i] == Some(0);
      assert HeapSlots(heap)[i] == Some(0);
    }
  }

  /** What the single calls may rely on. */
  lemma RightOf(m: MemState, reserved: set<nat>)
    requires MemRight(m, reserved)
    ensures HeapRight(m.heap) && Owns(m.frames, HeapSlots(m.heap)) && |m.frames| > 0 && m.frames[0] && |m.pages| == |m.frames|
    ensures m.dead <= m.world.Keys
    ensures forall p :: p in m.world ==> Owns(m.frames, SlotsOf(m.world[p])) && Shaped(m.world[p]) && (p !in m.dead ==> Layout(m.world[p]))
  {
    var owners := Owners(m.world, m.heap);
    assert KERNEL_OWNER in owners;
    ZeroAllocated(m.frames, m.heap, reserved);
    forall p | p in m.world ensures Owns(m.frames, SlotsOf(m.world[p])) {
      assert p in owners && owners[p] == SlotsOf(m.world[p]);
    }
  }

  lemma OwnersWith(world: World, heap: Heap, p: nat, s: Space)
    ensures Owners(world[p := s], heap) == Owners(world, heap)[p := SlotsOf(s)]
    ensures p in Owners(world, heap) <==> p in world
    ensures p in world ==> Owners(world, heap)[p] == SlotsOf(world[p])
  {
    hide SlotsOf, HeapSlots;
  }

  lemma OwnersWithout(world: World, heap: Heap, p: nat, x: Slots)
    ensures Owners(world - {p}, heap) == Owners(world, heap)[p := x] - {p}
  {
    hide SlotsOf, HeapSlots;
  }

  lemma LayoutShaped(s: Space)
    requires Layout(s)
    ensures Shaped(s) && |s.table| == MAX_PT_LEN && |s.kstack| == KSTACK_PAGES
  {
  }

  lemma LawfulLength(frames: seq<bool>, slots: Slots, frames': seq<bool>, slots': Slots)
    requires Lawful(frames, slots, frames', slots')
    ensures |frames'| == |frames|
  {
  }

  /** One process's space changes lawfully. */
  lemma RightStep(m: MemState, reserved: set<nat>, p: nat, frames': seq<bool>, pages': seq<Page>, s: Space, dead': set<nat>)
    requires MemRight(m, reserved) && p in m.world && m.dead <= dead' <= m.dead + {p} && |pages'| == |m.pages|
    requires Lawful(m.frames, SlotsOf(m.world[p]), frames', SlotsOf(s)) && Shaped(s) && (p !in dead' ==> Layout(s))
    ensures MemRight(MemState(frames', pages', m.world[p := s], m.heap, dead'), reserved)
  {
    hide Partition, Shaped, Layout, Lawful, HeapRight, Owners, SlotsOf;
    LawfulLength(m.frames, SlotsOf(m.world[p]), frames', SlotsOf(s));
    OwnersWith(m.world, m.heap, p, s);
    LawfulKeepsPartition(m.frames, Owners(m.world, m.heap), reserved, p, frames', SlotsOf(s));
  }

  /** The kernel's heap changes lawfully. */
  lemma RightHeap(m: MemState, reserved: set<nat>, frames': seq<bool>, heap': Heap)
    requires MemRight(m, reserved) && HeapRight(heap') && ZeroTaken(heap', reserved)
    requires Lawful(m.frames, HeapSlots(m.heap), frames', HeapSlots(heap'))
    ensures MemRight(m.(frames := frames', heap := heap'), reserved)
  {
    hide Partition, Shaped, Layout, Lawful, HeapRight;
    LawfulLength(m.frames, HeapSlots(m.heap), frames', HeapSlots(heap'));
    var owners := Owners(m.world, m.heap);
    LawfulKeepsPartition(m.frames, owners, reserved, KERNEL_OWNER, frames', HeapSlots(heap'));
    assert Owners(m.world, heap') == owners[KERNEL_OWNER := HeapSlots(heap')];
  }

  /** A process comes, on frames that were free. */
  lemma RightNew(m: MemState, reserved: set<nat>, p: nat, frames': seq<bool>, pages': seq<Page>, s: Space)
    requires MemRight(m, reserved) && p !in m.world && |pages'| == |m.pages|
    requires Lawful(m.frames, [], frames', SlotsOf(s)) && Layout(s)
    ensures MemRight(m.(frames := frames', pages := pages', world := m.world[p := s]), reserved)
  {
    hide Partition, Shaped, Layout, Lawful, HeapRight, HeldBy, Owners, SlotsOf;
    LawfulLength(m.frames, [], frames', SlotsOf(s));
    LayoutShaped(s);
    NoneHeld([]);
    var owners := Owners(m.world, m.heap);
    OwnersWith(m.world, m.heap, p, s);
    NewcomerKeepsPartition(m.frames, owners, reserved, p, []);
    LawfulKeepsPartition(m.frames, owners[p := []], reserved, p, frames', SlotsOf(s));
    assert owners[p := []][p := SlotsOf(s)] == owners[p := SlotsOf(s)];
  }

  /** A process goes, and is dead no longer: its pid may be used again. */
  lemma RightGone(m: MemState, reserved: set<nat>, p: nat, frames': seq<bool>)
    requires MemRight(m, reserved) && p in m.world
    requires Lawful(m.frames, SlotsOf(m.world[p]), frames', [])
    ensures MemRight(m.(frames := frames', world := m.world - {p}, dead := m.dead - {p}), reserved)
  {
    hide Partition, Shaped, Layout, Lawful, HeapRight, HeldBy, Owners, SlotsOf;
    LawfulLength(m.frames, SlotsOf(m.world[p]), frames', []);
    NoneHeld([]);
    var owners := Owners(m.world, m.heap);
    OwnersWith(m.world, m.heap, p, m.world[p]);
    OwnersWithout(m.world, m.heap, p, []);
    LawfulKeepsPartition(m.frames, owners, reserved, p, frames', []);
    LeaverKeepsPartition(frames', owners[p := []], reserved, p);
  }

  /** Before the first process: the kernel's heap and reserved frames make up all that is allocated. */
  lemma RightAtBoot(frames: seq<bool>, pages: seq<Page>, heap: Heap, reserved: set<nat>)
    requires ZeroTaken(heap, reserved) && HeapRight(heap) && |pages| == |frames|
    requires Owns(frames, HeapSlots(heap)) && reserved !! HeldBy(HeapSlots(heap))
    requires Allocated(frames) == reserved + HeldBy(HeapSlots(heap))
    ensures MemRight(MemState(frames, pages, map[], heap, {}), reserved)
  {
    var owners := Owners(map[], heap);
    assert owners == map[KERNEL_OWNER := HeapSlots(heap)];
    assert KERNEL_OWNER in owners;
  }

  // ---------- any order of calls ----------

  /** One call that moves frames, with its answer, or a store by a user program. */
  datatype MemCall =
    | CallInit(pid: nat, li: LoadInfo)
    | CallFork(pid: nat, child: nat, pidOk: bool, ok: bool)
    | CallExec(pid: nat, li: LoadInfo, readsOk: bool, result: Loading)
    | CallBrk(pid: nat, addr: int, ok: bool)
    | CallFault(pid: nat, addr: int, ok: bool)
    | CallExit(pid: nat)
    | CallDestroy(pid: nat)
    | CallKernelBrk(top: nat, ok: bool)
    | Store(pid: nat, page: nat, bytes: Page)

  /** m' differs from m only in frames, in process p's address space, and in whether p is dead. */
  predicate OnlySpace(m: MemState, m': MemState, p: nat) {
    && p in m'.world && m' == m.(frames := m'.frames, pages := m'.pages, world := m.world[p := m'.world[p]], dead := m'.dead)
    && (m'.dead == m.dead || m'.dead == m.dead + {p})
  }

  /** The contents of the frames outside `slots` are what they were. */
  ghost predicate Untouched(frames: seq<bool>, slots: Slots, pages: seq<Page>, pages': seq<Page>) {
    |pages'| == |pages| && forall f :: f in Outside(frames, slots) && f < |pages| ==> pages'[f] == pages[f]
  }

  /** A child's space: the parent's break and stack, and its pages, with their bytes. */
  ghost predicate ChildOf(parent: Space, child: Space, pages: seq<Page>) {
    && |child.table| == MAX_PT_LEN && |child.kstack| == KSTACK_PAGES && Copied(parent.table, child.table, pages, MAX_PT_LEN)
    && child.brk == parent.brk && child.heapStart == parent.heapStart && child.stackLow == parent.stackLow
  }

  predicate Live(m: MemState, p: nat) {
    p in m.world && p !in m.dead
  }

  /** The caller is a live process, a new pid is free, and the header of a program is well formed. */
  predicate Possible(m: MemState, call: MemCall) {
    match call
    case CallInit(p, li) => p !in m.world && WellFormed(li)
    case CallFork(p, c, _, _) => Live(m, p) && c !in m.world
    case CallExec(p, li, _, _) => Live(m, p) && WellFormed(li)
    case CallBrk(p, _, _) => Live(m, p)
    case CallFault(p, _, _) => Live(m, p)
    case CallExit(p) => p in m.world
    case CallDestroy(p) => p in m.world
    case CallKernelBrk(_, _) => true
    case Store(p, i, _) =>
      Live(m, p) && i < |m.world[p].table| && m.world[p].table[i].valid && m.world[p].table[i].prot == ReadWrite
      && m.world[p].table[i].pfn < |m.pages|
  }

  /** What the call makes of m: the effect each call promises on its own, and nothing about the others. */
  ghost predicate Next(m: MemState, call: MemCall, m': MemState) {
    Possible(m, call) &&
    match call
    case CallInit(p, li) =>
      && OnlySpace(m, m', p) && m'.dead == m.dead && m'.pages == m.pages
      && Lawful(m.frames, [], m'.frames, SlotsOf(m'.world[p])) && Shaped(m'.world[p]) && Fits(li) && HasImage(m'.world[p], li)
    case CallFork(p, c, pidOk, ok) =>
      && Untouched(m.frames, [], m.pages, m'.pages)
      && (ok <==> pidOk && KSTACK_PAGES + |Pages(m.world[p].table)| <= |FreeFrames(m.frames)|)
      && m'.heap == m.heap.(table := m'.heap.table) && ScratchLeft(m.frames, m.heap.table, m'.heap.table, pidOk, ok)
      && (!ok ==> m' == m.(pages := m'.pages, heap := m'.heap))
      && (ok ==> OnlySpace(m.(heap := m'.heap), m', c) && m'.dead == m.dead
                 && Lawful(m.frames, [], m'.frames, SlotsOf(m'.world[c])) && ChildOf(m.world[p], m'.world[c], m'.pages))
    case CallExec(p, li, readsOk, result) =>
      && (result == Refused <==> !Fits(li))
      && (result == Loaded <==> Fits(li) && readsOk && FramesNeeded(li) <= |FreeFrames(m.frames)| + |Pages(m.world[p].table)|)
      && (result == Refused ==> m' == m)
      && (result != Refused ==> OnlySpace(m, m', p) && (p in m'.dead <==> result == Kill) && Shaped(m'.world[p])
                                && Untouched(m.frames, SlotsOf(m.world[p]), m.pages, m'.pages)
                                && Lawful(m.frames, SlotsOf(m.world[p]), m'.frames, SlotsOf(m'.world[p])))
      && (result == Loaded ==> HasImage(m'.world[p], li))
    case CallBrk(p, addr, ok) =>
      var s := m.world[p];
      && (ok <==> s.heapStart <= addr < VMEM_1_LIMIT && UpPage(addr) < s.stackLow && UpPage(addr) <= UpPage(s.brk) + |FreeFrames(m.frames)|)
      && (!ok ==> m' == m)
      && (ok ==> OnlySpace(m, m', p) && m'.dead == m.dead && m'.pages == m.pages && BrkMoved(s, addr, m'.world[p])
                 && BreakCovers(m'.world[p], addr)
                 && Lawful(m.frames, SlotsOf(s), m'.frames, SlotsOf(m'.world[p])))
    case CallFault(p, addr, ok) =>
      var s := m.world[p];
      && (ok <==> VMEM_1_BASE <= addr < VMEM_1_LIMIT && UpPage(s.brk) < DownPage(addr) < s.stackLow
                  && s.stackLow <= DownPage(addr) + |FreeFrames(m.frames)|)
      && OnlySpace(m, m', p) && (p in m'.dead <==> !ok) && m'.pages == m.pages
      && Lawful(m.frames, SlotsOf(s), m'.frames, SlotsOf(m'.world[p]))
      && (if ok then StackGrown(s, DownPage(addr), m'.world[p]) && StackCovers(m'.world[p], addr) else StackStuck(s, m'.world[p]))
    case CallExit(p) => m' == m.(dead := m.dead + {p})
    case CallDestroy(p) =>
      m' == m.(frames := m'.frames, world := m.world - {p}, dead := m.dead - {p}) && Emptied(m.frames, m.world[p], m'.frames)
    case CallKernelBrk(top, ok) =>
      var page := Requested(top, m.heap.origBrk);
      && (ok <==> page <= |m.heap.table| && page <= m.heap.brkPage + |FreeFrames(m.frames)|)
      && (!ok ==> m' == m)
      && (ok ==> m' == m.(frames := m'.frames, heap := m'.heap) && HeapMoved(m.heap, page, m'.heap)
                 && HeapCovers(m'.heap, top)
                 && Lawful(m.frames, HeapSlots(m.heap), m'.frames, HeapSlots(m'.heap)))
    case Store(p, i, bytes) => m' == m.(pages := m.pages[m.world[p].table[i].pfn := bytes])
  }

  ghost predicate HasImage(s: Space, li: LoadInfo) {
    ImageMapped(s.table, li) && s.brk == s.heapStart == li.heapStart && s.stackLow == li.stackBase
  }

  /** All that s held went back. */
  ghost predicate Emptied(frames: seq<bool>, s: Space, frames': seq<bool>) {
    Lawful(frames, SlotsOf(s), frames', [])
  }

  // ---------- every call keeps the accounts ----------

  /** The fork maps its copies over a page of the kernel's heap: the break is above the scratch page, and the fork gets that far. */
  predicate MapsOverHeap(m: MemState, call: MemCall) {
    match call
    case CallFork(p, _, pidOk, _) =>
      && m.heap.brkPage == |m.heap.table| && p in m.world && pidOk
      && (KSTACK_PAGES < |FreeFrames(m.frames)| || KSTACK_PAGES + |Pages(m.world[p].table)| <= |FreeFrames(m.frames)|)
    case _ => false
  }

  /** While the break is not above it, the scratch page's entry is nobody's. */
  lemma ScratchIsFree(h: Heap, frames: seq<bool>, h': Heap, pidOk: bool, ok: bool)
    requires HeapRight(h) && (h.brkPage < |h.table| || h'.table == h.table)
    requires h' == h.(table := h'.table) && ScratchLeft(frames, h.table, h'.table, pidOk, ok)
    ensures HeapRight(h') && HeapSlots(h') == HeapSlots(h) && h'.table[..h.origBrk] == h.table[..h.origBrk]
  {
    hide FreeFrames;
    var scratch := |h.table| - 1;
    assert forall i :: 0 <= i < scratch ==> h'.table[i] == h.table[i];
    assert h.brkPage < |h.table| ==> h'.table[..h.brkPage] == h.table[..h.brkPage];
  }

  lemma RightScratch(m: MemState, reserved: set<nat>, heap': Heap)
    requires MemRight(m, reserved) && HeapRight(heap') && HeapSlots(heap') == HeapSlots(m.heap)
    requires heap'.origBrk == m.heap.origBrk && heap'.table[..heap'.origBrk] == m.heap.table[..heap'.origBrk]
    ensures MemRight(m.(heap := heap'), reserved)
  {
    hide Partition, Shaped, Layout, HeapSlots, TableSlots;
    assert Owners(m.world, heap') == Owners(m.world, m.heap);
  }

  /** A fork keeps the accounts as long as it maps nothing over the heap. */
  lemma RightFork(m: MemState, reserved: set<nat>, p: nat, c: nat, pidOk: bool, ok: bool, m': MemState)
    requires MemRight(m, reserved) && Next(m, CallFork(p, c, pidOk, ok), m') && !MapsOverHeap(m, CallFork(p, c, pidOk, ok))
    ensures MemRight(m', reserved)
  {
    hide MemRight, Lawful, Layout, Shaped, HeldBy, SlotsOf, HeapRight, FreeFrames, Pages, HeapSlots, ChildOf,
      OnLastFree;
    RightOf(m, reserved);
    var m1 := m.(heap := m'.heap);
    ScratchIsFree(m.heap, m.frames, m'.heap, pidOk, ok);
    RightScratch(m, reserved, m'.heap);
    if ok {
      ChildLayout(m.world[p], m'.world[c], m'.pages);
      RightNew(m1, reserved, c, m'.frames, m'.pages, m'.world[c]);
    } else {
      RightPages(m1, reserved, m'.pages);
    }
  }

  lemma ChildLayout(parent: Space, child: Space, pages: seq<Page>)
    requires Layout(parent) && ChildOf(parent, child, pages)
    ensures Layout(child)
  {
    CopiedLayout(parent, child, pages);
  }

  /**
   * A fork leaves an entry in the empty scratch page exactly if it had frames for the kernel stack and at least one
   * page, but not for all pages: the entry is on the last free frame. The accounts are right all the same, as long as
   * the break is below the page.
   */
  lemma EntryLeftBehind(m: MemState, p: nat, c: nat, pidOk: bool, ok: bool, m': MemState, reserved: set<nat>)
    requires MemRight(m, reserved) && Next(m, CallFork(p, c, pidOk, ok), m') && m.heap.brkPage < |m.heap.table|
    requires m.heap.table[|m.heap.table| - 1] == NoPte
    ensures MemRight(m', reserved) && |m'.heap.table| == |m.heap.table|
    ensures var entry := m'.heap.table[|m.heap.table| - 1];
      && (entry != NoPte <==> pidOk && KSTACK_PAGES < |FreeFrames(m.frames)| < KSTACK_PAGES + |Pages(m.world[p].table)|)
      && (entry != NoPte ==> !ok && OnLastFree(m'.frames, entry))
  {
    RightFork(m, reserved, p, c, pidOk, ok, m');
    hide MemRight, FreeFrames, Pages, Lawful, ChildOf;
  }

  /** A frame that is allocated, but neither reserved nor anybody's. */
  ghost predicate Ownerless(m: MemState, reserved: set<nat>, f: nat) {
    && f in Allocated(m.frames) && f !in reserved
    && forall o :: o in Owners(m.world, m.heap) ==> f !in HeldBy(Owners(m.world, m.heap)[o])
  }

  lemma NothingLost(m: MemState, reserved: set<nat>, f: nat)
    requires MemRight(m, reserved)
    ensures !Ownerless(m, reserved, f)
  {
    hide Shaped, Layout, HeapRight, Owners, HeldBy, Allocated;
    if Ownerless(m, reserved, f) {
      var o := SomeOwner(m.frames, Owners(m.world, m.heap), reserved, f);
    }
  }

  /** The heap's last page, and what the fork makes of it. */
  lemma OverHeap(m: MemState, reserved: set<nat>, p: nat, c: nat, pidOk: bool, ok: bool, m': MemState)
    requires MemRight(m, reserved) && Next(m, CallFork(p, c, pidOk, ok), m') && MapsOverHeap(m, CallFork(p, c, pidOk, ok))
    ensures var scratch := |m.heap.table| - 1;
      && m.heap.origBrk <= scratch && m.heap.table[scratch].valid
      && m'.heap == m.heap.(table := m.heap.table[scratch := m'.heap.table[scratch]])
      && (if ok then m'.heap.table[scratch] == NoPte else m'.frames == m.frames && OnLastFree(m'.frames, m'.heap.table[scratch]))
  {
    hide Partition, Shaped, Layout, Lawful, FreeFrames, Pages, ChildOf, OnLastFree;
  }

  lemma NotRightAnyMore(m: MemState, reserved: set<nat>)
    requires m.heap.origBrk < |m.heap.table| == m.heap.brkPage
    requires var pte := m.heap.table[|m.heap.table| - 1]; !pte.valid || (pte.pfn < |m.frames| && !m.frames[pte.pfn])
    ensures !MemRight(m, reserved)
  {
    hide Shaped, Layout;
    var owners, scratch := Owners(m.world, m.heap), |m.heap.table| - 1;
    assert KERNEL_OWNER in owners && owners[KERNEL_OWNER] == HeapSlots(m.heap);
    assert m.heap.table[scratch].valid ==> HeapSlots(m.heap)[scratch] == Some(m.heap.table[scratch].pfn);
  }

  /** The frame of the heap's last page is the heap's alone, and that page's alone. */
  lemma LastPageHeld(m: MemState, reserved: set<nat>)
    requires MemRight(m, reserved) && m.heap.brkPage == |m.heap.table|
    ensures |m.heap.table| > 0 && m.heap.table[|m.heap.table| - 1].valid
    ensures var f, owners := m.heap.table[|m.heap.table| - 1].pfn, Owners(m.world, m.heap);
      && f in Allocated(m.frames) && f !in reserved && forall o :: o in owners && o != KERNEL_OWNER ==> f !in HeldBy(owners[o])
  {
    hide Shaped, Layout;
    var kernel, scratch := HeapSlots(m.heap), |m.heap.table| - 1;
    assert Owners(m.world, m.heap)[KERNEL_OWNER] == kernel && kernel[scratch] == Some(m.heap.table[scratch].pfn);
    assert m.heap.table[scratch].pfn in HeldBy(kernel);
  }

  /** Once the entry of the heap's last page is another, no page of the heap is on the frame. */
  lemma LastPageGone(frames: seq<bool>, h: Heap, pte: Pte)
    requires Owns(frames, HeapSlots(h)) && h.brkPage == |h.table| > 0 && h.table[|h.table| - 1].valid
    requires pte.valid ==> pte.pfn != h.table[|h.table| - 1].pfn
    ensures h.table[|h.table| - 1].pfn !in HeldBy(HeapSlots(h.(table := h.table[|h.table| - 1 := pte])))
  {
    var scratch := |h.table| - 1;
    HeldAfter(HeapSlots(h), scratch, SlotOf(pte));
    assert HeapSlots(h.(table := h.table[scratch := pte])) == HeapSlots(h)[scratch := SlotOf(pte)];
  }

  /** A newcomer holds none of the frames that were allocated before. */
  lemma StillAllocated(frames: seq<bool>, frames': seq<bool>, slots: Slots, f: nat)
    requires Lawful(frames, [], frames', slots) && f in Allocated(frames)
    ensures f in Allocated(frames') && f !in HeldBy(slots)
  {
    assert f in Outside(frames, []);
  }

  /** The frame of the heap's last page is nobody's after the fork. */
  lemma LastPageLost(m: MemState, reserved: set<nat>, p: nat, c: nat, pidOk: bool, ok: bool, m': MemState)
    requires MemRight(m, reserved) && Next(m, CallFork(p, c, pidOk, ok), m') && MapsOverHeap(m, CallFork(p, c, pidOk, ok))
    ensures |m.heap.table| > 0 && Ownerless(m', reserved, m.heap.table[|m.heap.table| - 1].pfn)
  {
    hide MemRight, Partition, Lawful, Pages, FreeFrames, ChildOf, SlotsOf, HeldBy, HeapSlots, ScratchLeft, OnLastFree,
      Shaped, Layout;
    OverHeap(m, reserved, p, c, pidOk, ok, m');
    RightOf(m, reserved);
    LastPageHeld(m, reserved);
    var scratch, owners, owners' := |m.heap.table| - 1, Owners(m.world, m.heap), Owners(m'.world, m'.heap);
    var f := m.heap.table[scratch].pfn;
    if ok {
      StillAllocated(m.frames, m'.frames, SlotsOf(m'.world[c]), f);
    } else {
      NotOnFree(m.frames, m'.heap.table[scratch], f);
    }
    LastPageGone(m.frames, m.heap, m'.heap.table[scratch]);
    forall o | o in owners' ensures f !in HeldBy(owners'[o]) {
      assert o in m.world ==> o in owners && owners'[o] == owners[o];
    }
  }

  lemma NotOnFree(frames: seq<bool>, pte: Pte, f: nat)
    requires OnLastFree(frames, pte) && f in Allocated(frames)
    ensures pte.pfn != f
  {
  }

  /**
   * A fork maps its copies at the scratch page and unmaps that page only at the end. While the break takes the page
   * in, the fork loses the heap's last frame exactly if it copies a page or succeeds: then the heap has a hole, or,
   * if the fork ran out of memory, a page on a frame that is free.
   */
  lemma ForkLosesFrame(m: MemState, p: nat, c: nat, pidOk: bool, ok: bool, m': MemState, reserved: set<nat>)
    requires MemRight(m, reserved) && Next(m, CallFork(p, c, pidOk, ok), m')
    ensures (exists f :: Ownerless(m', reserved, f)) <==> MapsOverHeap(m, CallFork(p, c, pidOk, ok))
    ensures MemRight(m', reserved) <==> !MapsOverHeap(m, CallFork(p, c, pidOk, ok))
    ensures MapsOverHeap(m, CallFork(p, c, pidOk, ok)) ==>
      var scratch := |m.heap.table| - 1;
      && scratch >= 0 && Ownerless(m', reserved, m.heap.table[scratch].pfn) && |m'.heap.table| == |m.heap.table|
      && if ok then m'.heap.table[scratch] == NoPte else OnLastFree(m'.frames, m'.heap.table[scratch])
  {
    hide MemRight, Ownerless, Next, MapsOverHeap;
    if MapsOverHeap(m, CallFork(p, c, pidOk, ok)) {
      OverHeap(m, reserved, p, c, pidOk, ok, m');
      LastPageLost(m, reserved, p, c, pidOk, ok, m');
      BreakOnTop(m, p, c, pidOk, ok);
      NotRightAnyMore(m', reserved);
    } else {
      RightFork(m, reserved, p, c, pidOk, ok, m');
      forall f ensures !Ownerless(m', reserved, f) {
        NothingLost(m', reserved, f);
      }
    }
  }

  lemma BreakOnTop(m: MemState, p: nat, c: nat, pidOk: bool, ok: bool)
    requires MapsOverHeap(m, CallFork(p, c, pidOk, ok))
    ensures m.heap.brkPage == |m.heap.table|
  {
  }

  /**
   * Whatever the call and however it ends, every frame keeps exactly one owner and every live process its layout,
   * except if a fork maps its copies over the kernel's heap.
   */
  lemma NextKeeps(m: MemState, call: MemCall, m': MemState, reserved: set<nat>)
    requires MemRight(m, reserved) && Next(m, call, m')
    ensures MemRight(m', reserved) <==> !MapsOverHeap(m, call)
  {
    hide MemRight, Lawful, Layout, Shaped, HeldBy, SlotsOf, ImageMapped, HeapRight, WellFormed, Fits, Pages,
      FreeFrames;
    hide BrkMoved, BreakCovers, HeapMoved, HeapCovers, StackGrown, StackCovers, StackStuck, UpPage, DownPage,
      Requested, FramesNeeded, HeapSlots,
      ScratchLeft, ZeroTaken;
    RightOf(m, reserved);
    var w, w' := m.world, m'.world;
    match call {
      case CallInit(p, li) =>
        LoadedLayout(w'[p], li);
        RightNew(m, reserved, p, m'.frames, m'.pages, w'[p]);
      case CallFork(p, c, pidOk, ok) => ForkLosesFrame(m, p, c, pidOk, ok, m', reserved);
      case CallExec(p, li, readsOk, result) =>
        if result == Loaded {
          LoadedLayout(w'[p], li);
        }
        if result != Refused {
          RightStep(m, reserved, p, m'.frames, m'.pages, w'[p], m'.dead);
        }
      case CallBrk(p, addr, ok) =>
        if ok {
          BrkKeepsLayout(w[p], addr, w'[p]);
          LayoutShaped(w'[p]);
          RightStep(m, reserved, p, m'.frames, m'.pages, w'[p], m'.dead);
        }
      case CallFault(p, addr, ok) =>
        if ok {
          GrowthKeepsLayout(w[p], DownPage(addr), w'[p]);
          LayoutShaped(w'[p]);
        } else {
          StuckShaped(w[p], w'[p]);
        }
        RightStep(m, reserved, p, m'.frames, m'.pages, w'[p], m'.dead);
      case CallExit(p) => RightExit(m, reserved, p);
      case CallDestroy(p) => RightGone(m, reserved, p, m'.frames);
      case CallKernelBrk(top, ok) =>
        if ok {
          NotBelowImage(top, m.heap.origBrk);
          MovedRight(m.heap, Requested(top, m.heap.origBrk), m'.heap);
          ZeroStays(m, reserved, m'.heap);
          RightHeap(m, reserved, m'.frames, m'.heap);
        }
      case Store(p, i, bytes) => RightPages(m, reserved, m'.pages);
    }
  }

  lemma ZeroStays(m: MemState, reserved: set<nat>, heap': Heap)
    requires MemRight(m, reserved) && HeapRight(heap') && heap'.origBrk == m.heap.origBrk
    requires heap'.table[..heap'.origBrk] == m.heap.table[..heap'.origBrk]
    ensures ZeroTaken(heap', reserved)
  {
    hide TableSlots, Partition, Shaped, Layout;
  }

  lemma RightExit(m: MemState, reserved: set<nat>, p: nat)
    requires MemRight(m, reserved) && p in m.world
    ensures MemRight(m.(dead := m.dead + {p}), reserved)
  {
    hide Partition, Shaped, Layout, HeapRight, Owners;
  }

  lemma RightPages(m: MemState, reserved: set<nat>, pages': seq<Page>)
    requires MemRight(m, reserved) && |pages'| == |m.pages|
    ensures MemRight(m.(pages := pages'), reserved)
  {
    hide Partition, Shaped, Layout, HeapRight, Owners;
  }

  /** ms are the states a run of calls goes through. */
  ghost predicate MemRun(ms: seq<MemState>, calls: seq<MemCall>) {
    |ms| == |calls| + 1 && forall i :: 0 <= i < |calls| ==> Next(ms[i], calls[i], ms[i + 1])
  }

  lemma RestOfRun(ms: seq<MemState>, calls: seq<MemCall>)
    requires MemRun(ms, calls) && calls != []
    ensures Next(ms[0], calls[0], ms[1]) && MemRun(ms[1..], calls[1..])
  {
    hide Next;
    var rest, later := ms[1..], calls[1..];
    forall i | 0 <= i < |later| ensures Next(rest[i], later[i], rest[i + 1]) {
      assert Next(ms[i + 1], calls[i + 1], ms[i + 2]);
    }
  }

  /** No fork of the run maps its copies over the kernel's heap. */
  ghost predicate HeapSpared(ms: seq<MemState>, calls: seq<MemCall>)
    requires |ms| > |calls|
  {
    forall i :: 0 <= i < |calls| ==> !MapsOverHeap(ms[i], calls[i])
  }

  lemma SparedRest(ms: seq<MemState>, calls: seq<MemCall>)
    requires |ms| > |calls| > 0
    ensures HeapSpared(ms, calls) <==> !MapsOverHeap(ms[0], calls[0]) && HeapSpared(ms[1..], calls[1..])
  {
    hide MapsOverHeap;
    var rest, later := ms[1..], calls[1..];
    assert forall i :: 0 < i < |calls| ==> ms[i] == rest[i - 1] && calls[i] == later[i - 1];
    assert forall i :: 0 <= i < |later| ==> rest[i] == ms[i + 1] && later[i] == calls[i + 1];
  }

  /** Over any run of calls, from the state boot leaves: no frame has two owners and none is lost, exactly if the heap is spared. */
  lemma {:induction false} EveryRunKeeps(ms: seq<MemState>, calls: seq<MemCall>, reserved: set<nat>)
    requires MemRun(ms, calls) && MemRight(ms[0], reserved)
    ensures (forall i :: 0 <= i < |ms| ==> MemRight(ms[i], reserved)) <==> HeapSpared(ms, calls)
    decreases |calls|
  {
    hide Next, MemRight, HeapSpared, MapsOverHeap;
    if calls == [] {
      SparedNothing(ms);
    } else {
      RestOfRun(ms, calls);
      SparedRest(ms, calls);
      NextKeeps(ms[0], calls[0], ms[1], reserved);
      RightFromOne(ms, reserved);
      if MemRight(ms[1], reserved) {
        EveryRunKeeps(ms[1..], calls[1..], reserved);
      }
    }
  }

  lemma SparedNothing(ms: seq<MemState>)
    requires ms != []
    ensures HeapSpared(ms, [])
  {
  }

  lemma RightFromOne(ms: seq<MemState>, reserved: set<nat>)
    requires |ms| > 1 && MemRight(ms[0], reserved)
    ensures (forall i :: 0 <= i < |ms| ==> MemRight(ms[i], reserved))
       <==> (forall i :: 0 <= i < |ms[1..]| ==> MemRight(ms[1..][i], reserved))
  {
    hide MemRight;
    var rest := ms[1..];
    assert forall i :: 0 < i < |ms| ==> ms[i] == rest[i - 1];
    assert forall i :: 0 <= i < |rest| ==> rest[i] == ms[i + 1];
  }

  lemma HeldSlot(slots: Slots, f: nat)
    ensures f in HeldBy(slots) <==> exists i :: 0 <= i < |slots| && slots[i] == Some(f)
  {
  }

  /** What MemRight says of one allocated frame: it is reserved, or one owner holds it, in one slot. */
  lemma OneOwner(m: MemState, reserved: set<nat>, f: nat)
    requires MemRight(m, reserved) && f in Allocated(m.frames)
    ensures var owners := Owners(m.world, m.heap);
      && (f in reserved <==> forall o, i :: o in owners && 0 <= i < |owners[o]| ==> owners[o][i] != Some(f))
      && (forall o, i, p, j |
            o in owners && p in owners && 0 <= i < |owners[o]| && 0 <= j < |owners[p]|
            && owners[o][i] == Some(f) && owners[p][j] == Some(f) :: o == p && i == j)
  {
    hide Owners, Allocated, HeldBy, HeapRight, Shaped, Layout;
    var owners := Owners(m.world, m.heap);
    forall o, i | o in owners && 0 <= i < |owners[o]| && owners[o][i] == Some(f) ensures f in HeldBy(owners[o]) && f !in reserved {
      HeldSlot(owners[o], f);
      assert reserved !! HeldBy(owners[o]);
    }
    forall o, i, p, j | o in owners && p in owners && 0 <= i < |owners[o]| && 0 <= j < |owners[p]|
                        && owners[o][i] == Some(f) && owners[p][j] == Some(f)
      ensures o == p && i == j
    {
      assert Owns(m.frames, owners[o]);
    }
    if f !in reserved {
      var o := SomeOwner(m.frames, owners, reserved, f);
      HeldSlot(owners[o], f);
    }
  }

  // ---------- memory is private ----------

  /** What a process sees of its Region 1: the bytes of every mapped page. */
  function Seen(m: MemState, p: nat): (view: seq<Option<Page>>)
    requires p in m.world
  {
    var table := m.world[p].table;
    seq(|table|, i requires 0 <= i < |table| => if table[i].valid && table[i].pfn < |m.pages| then Some(m.pages[table[i].pfn]) else None)
  }

  /** The process whose memory the call is about; a fork is about the child's. */
  function Subject(call: MemCall): Option<nat> {
    match call
    case CallInit(p, _) => Some(p)
    case CallFork(_, c, _, _) => Some(c)
    case CallExec(p, _, _, _) => Some(p)
    case CallBrk(p, _, _) => Some(p)
    case CallFault(p, _, _) => Some(p)
    case CallExit(p) => None
    case CallDestroy(p) => Some(p)
    case CallKernelBrk(_, _) => None
    case Store(p, _, _) => Some(p)
  }

  /** A frame of another process is outside what the subject of a call holds. */
  lemma FrameOutside(m: MemState, reserved: set<nat>, q: nat, i: nat, p: Option<nat>)
    requires MemRight(m, reserved) && q in m.world && i < |m.world[q].table| && m.world[q].table[i].valid
    requires p.Some? ==> p.value in m.world && p.value != q
    ensures var f := m.world[q].table[i].pfn; f < |m.pages| && f in Outside(m.frames, if p.Some? then SlotsOf(m.world[p.value]) else [])
  {
    hide HeapRight, Layout, Shaped;
    var owners, f := Owners(m.world, m.heap), m.world[q].table[i].pfn;
    assert q in owners && owners[q] == SlotsOf(m.world[q]);
    assert owners[q][i] == Some(f);
    assert f in HeldBy(owners[q]);
    if p.Some? {
      assert p.value in owners && owners[p.value] == SlotsOf(m.world[p.value]);
      assert HeldBy(owners[q]) !! HeldBy(owners[p.value]);
    }
  }

  lemma SeenAlike(m: MemState, reserved: set<nat>, m': MemState, q: nat, p: Option<nat>)
    requires MemRight(m, reserved) && q in m.world && q in m'.world && m'.world[q] == m.world[q]
    requires p.Some? ==> p.value in m.world && p.value != q
    requires Untouched(m.frames, if p.Some? then SlotsOf(m.world[p.value]) else [], m.pages, m'.pages)
    ensures Seen(m', q) == Seen(m, q)
  {
    hide MemRight, Outside, SlotsOf;
    var table := m.world[q].table;
    forall i | 0 <= i < |table| ensures Seen(m', q)[i] == Seen(m, q)[i] {
      if table[i].valid {
        FrameOutside(m, reserved, q, i, p);
      }
    }
  }

  lemma NothingTouched(frames: seq<bool>, slots: Slots, pages: seq<Page>)
    ensures Untouched(frames, slots, pages, pages)
  {
  }

  /** A store reaches no frame but the one its page is mapped to. */
  lemma StoreTouches(frames: seq<bool>, s: Space, pages: seq<Page>, i: nat, bytes: Page)
    requires i < |s.table| && s.table[i].valid && s.table[i].pfn < |pages|
    ensures Untouched(frames, SlotsOf(s), pages, pages[s.table[i].pfn := bytes])
  {
    assert SlotsOf(s)[i] == Some(s.table[i].pfn);
    assert s.table[i].pfn in HeldBy(SlotsOf(s));
  }

  /** No call or store changes the address space of a process it is not about, or a byte that process sees. */
  lemma OthersSeeNothing(m: MemState, call: MemCall, m': MemState, reserved: set<nat>, q: nat)
    requires MemRight(m, reserved) && Next(m, call, m') && q in m.world && Subject(call) != Some(q)
    ensures q in m'.world && m'.world[q] == m.world[q] && Seen(m', q) == Seen(m, q)
  {
    hide MemRight, Lawful, Layout, Shaped, HeldBy, SlotsOf, ImageMapped, HeapRight, WellFormed, Fits, Pages,
      FreeFrames, Seen, Untouched;
    hide BrkMoved, BreakCovers, HeapMoved, HeapCovers, StackGrown, StackCovers, StackStuck, UpPage, DownPage,
      Requested, FramesNeeded, ChildOf, HeapSlots,
      ScratchLeft;
    NothingTouched(m.frames, [], m.pages);
    match call {
      case CallFork(_, _, _, _) => SeenAlike(m, reserved, m', q, None);
      case CallExec(p, _, _, result) =>
        if result != Refused {
          SeenAlike(m, reserved, m', q, Some(p));
        }
      case Store(p, i, bytes) =>
        StoreTouches(m.frames, m.world[p], m.pages, i, bytes);
        SeenAlike(m, reserved, m', q, Some(p));
      case _ => SeenAlike(m, reserved, m', q, None);
    }
  }

  /** Over any run that has no call or store of its own, a process sees the same bytes, whatever all others do. */
  lemma {:induction false} MemoryIsPrivate(ms: seq<MemState>, calls: seq<MemCall>, reserved: set<nat>, q: nat)
    requires MemRun(ms, calls) && MemRight(ms[0], reserved) && HeapSpared(ms, calls) && q in ms[0].world
    requires forall i :: 0 <= i < |calls| ==> Subject(calls[i]) != Some(q)
    ensures forall i :: 0 <= i < |ms| ==> q in ms[i].world && ms[i].world[q] == ms[0].world[q] && Seen(ms[i], q) == Seen(ms[0], q)
    decreases |calls|
  {
    hide Next, MemRight, Seen, Subject, HeapSpared, MapsOverHeap;
    if calls != [] {
      RestOfRun(ms, calls);
      SparedRest(ms, calls);
      OthersSeeNothing(ms[0], calls[0], ms[1], reserved, q);
      NextKeeps(ms[0], calls[0], ms[1], reserved);
      forall i | 0 <= i < |calls[1..]| ensures Subject(calls[1..][i]) != Some(q) {
        assert calls[1..][i] == calls[i + 1];
      }
      MemoryIsPrivate(ms[1..], calls[1..], reserved, q);
      forall i | 0 <= i < |ms| ensures q in ms[i].world && ms[i].world[q] == ms[0].world[q] && Seen(ms[i], q) == Seen(ms[0], q) {
        assert i > 0 ==> ms[i] == ms[1..][i - 1];
      }
    }
  }

  /** A child starts with exactly the bytes its parent sees, and the fork changes none of the parent's. */
  lemma ForkCopies(m: MemState, p: nat, c: nat, m': MemState, reserved: set<nat>)
    requires MemRight(m, reserved) && Next(m, CallFork(p, c, true, true), m')
    ensures Seen(m', c) == Seen(m, p) == Seen(m', p)
  {
    OthersSeeNothing(m, CallFork(p, c, true, true), m', reserved, p);
    hide MemRight, Lawful, SlotsOf, Untouched, HeldBy, Pages, FreeFrames, Layout;
    RightOf(m, reserved);
    assert m'.world[p] == m.world[p];
    LayoutShaped(m.world[p]);
  }

  /** The page a process stores into is the only one of its own that changes. */
  lemma StoreSeen(m: MemState, p: nat, i: nat, bytes: Page, m': MemState, reserved: set<nat>)
    requires MemRight(m, reserved) && Next(m, Store(p, i, bytes), m')
    ensures Seen(m', p) == Seen(m, p)[i := Some(bytes)]
  {
    hide Layout, HeapRight, Shaped;
    RightOf(m, reserved);
    var s := m.world[p];
    forall j | 0 <= j < |s.table| && s.table[j].valid && j != i ensures s.table[j].pfn != s.table[i].pfn {
      assert SlotsOf(s)[j] == Some(s.table[j].pfn) && SlotsOf(s)[i] == Some(s.table[i].pfn);
    }
  }
}
