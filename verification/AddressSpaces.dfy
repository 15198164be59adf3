/**
 * The memory of one process: its Region 1 page table, its kernel-stack frames and its break (src/process.c,
 * SysBrk of src/syscalls.c).
 */
module AddressSpaces {
  import opened Common
  import opened FrameOwnership
  import opened PageTables

  // ---------- addresses ----------

  const REGION0_PAGES: Positive
  const VMEM_1_BASE: Positive := REGION0_PAGES * PAGESIZE
  const VMEM_1_LIMIT: int := VMEM_1_BASE + MAX_PT_LEN * PAGESIZE

  /** (UP_TO_PAGE(addr) - VMEM_1_BASE) >> PAGESHIFT */
  function UpPage(addr: int): int {
    (addr - VMEM_1_BASE + PAGESIZE - 1) / PAGESIZE
  }

  /** (addr - VMEM_1_BASE) >> PAGESHIFT */
  function DownPage(addr: int): int {
    (addr - VMEM_1_BASE) / PAGESIZE
  }

  /** The address at which Region 1 page i starts. */
  function PageStart(i: int): int {
    VMEM_1_BASE + i * PAGESIZE
  }

  lemma PageOfStart(i: int)
    ensures UpPage(PageStart(i)) == i && DownPage(PageStart(i)) == i
  {
    assert (i + 1) * PAGESIZE == i * PAGESIZE + PAGESIZE;
    DivStep(i * PAGESIZE + PAGESIZE - 1, i, PAGESIZE);
    DivStep(i * PAGESIZE, i, PAGESIZE);
  }

  lemma UpPageMono(a: int, b: int)
    requires a <= b
    ensures UpPage(a) <= UpPage(b) && DownPage(a) <= DownPage(b) <= UpPage(b)
  {
    DivMono(a - VMEM_1_BASE + PAGESIZE - 1, b - VMEM_1_BASE + PAGESIZE - 1, PAGESIZE);
    DivMono(a - VMEM_1_BASE, b - VMEM_1_BASE, PAGESIZE);
    DivMono(b - VMEM_1_BASE, b - VMEM_1_BASE + PAGESIZE - 1, PAGESIZE);
  }

  /** Address a lies on Region 1 page p. */
  predicate OnPage(a: int, p: int) {
    0 <= a - VMEM_1_BASE - p * PAGESIZE < PAGESIZE
  }

  /** An address lies on one page, and rounding it up gives the first page start that is not below it. */
  lemma Rounded(a: int)
    ensures OnPage(a, DownPage(a)) && forall p :: OnPage(a, p) ==> p == DownPage(a)
    ensures a <= PageStart(UpPage(a)) < a + PAGESIZE && (PageStart(UpPage(a)) - VMEM_1_BASE) % PAGESIZE == 0
  {
    forall p | OnPage(a, p) ensures p == DownPage(a) {
      OneDown(a - VMEM_1_BASE, p);
    }
    MultipleIs(UpPage(a));
  }

  lemma OneDown(x: int, p: int)
    requires 0 <= x - p * PAGESIZE < PAGESIZE
    ensures p == x / PAGESIZE
  {
    assert (p + 1) * PAGESIZE == p * PAGESIZE + PAGESIZE;
    DivStep(x, p, PAGESIZE);
  }

  lemma MultipleIs(i: int)
    ensures (i * PAGESIZE) % PAGESIZE == 0
  {
    PageOfStart(i);
  }

  // ---------- kernel stacks ----------

  function StackSlots(kstack: seq<nat>): Slots {
    seq(|kstack|, i requires 0 <= i < |kstack| => if kstack[i] != 0 then Some(kstack[i]) else None)
  }

  /** The memory part of a PCB as a value. */
  datatype Space = Space(table: seq<Pte>, kstack: seq<nat>, brk: nat, heapStart: nat, stackLow: nat)

  function SlotsOf(s: Space): Slots {
    TableSlots(s.table) + StackSlots(s.kstack)
  }

  ghost predicate Shaped(s: Space) {
    |s.table| == MAX_PT_LEN && |s.kstack| == KSTACK_PAGES && Canonical(s.table)
  }

  /**
   * Heap below, stack above, and between the break and the stack a gap of at least one unmapped page.
   */
  ghost predicate Layout(s: Space) {
    && Shaped(s)
    && s.heapStart == PageStart(UpPage(s.heapStart)) && s.brk == PageStart(UpPage(s.brk))
    && 0 <= UpPage(s.heapStart) <= UpPage(s.brk) < s.stackLow <= MAX_PT_LEN
    && (forall i :: UpPage(s.heapStart) <= i < UpPage(s.brk) ==> s.table[i].valid)
    && (forall i :: s.stackLow <= i < MAX_PT_LEN ==> s.table[i].valid)
    && (forall i :: UpPage(s.brk) <= i < s.stackLow ==> s.table[i] == NoPte)
  }

  /** Only the pages from lo up to hi differ, and they are freshly mapped. */
  ghost predicate Mapped(before: seq<Pte>, after: seq<Pte>, lo: int, hi: int) {
    |after| == |before| &&
    forall i :: 0 <= i < |before| ==> if lo <= i < hi then after[i].valid && after[i].prot == ReadWrite else after[i] == before[i]
  }

  /** Only the pages from lo up to hi differ, and they are unmapped. */
  ghost predicate Unmapped(before: seq<Pte>, after: seq<Pte>, lo: int, hi: int) {
    |after| == |before| && forall i :: 0 <= i < |before| ==> after[i] == if lo <= i < hi then NoPte else before[i]
  }

  /** SysBrk succeeded: only the pages between the two breaks changed. */
  ghost predicate BrkMoved(s: Space, addr: int, s': Space) {
    var oldPage, newPage := UpPage(s.brk), UpPage(addr);
    && s' == s.(table := s'.table, brk := s'.brk) && s'.brk == PageStart(newPage)
    && (if oldPage <= newPage then Mapped(s.table, s'.table, oldPage, newPage)
        else Unmapped(s.table, s'.table, newPage, oldPage))
  }

  /**
   * The break is the first page start that is not below addr, and every address from the start of the heap up to addr
   * is on a mapped page.
   */
  ghost predicate BreakCovers(s: Space, addr: int) {
    && addr <= s.brk < addr + PAGESIZE && (s.brk - VMEM_1_BASE) % PAGESIZE == 0
    && forall a, p :: s.heapStart <= a < addr && OnPage(a, p) ==> 0 <= p < |s.table| && s.table[p].valid
  }

  /** The stack starts on the page of addr, and every address from there to the end of Region 1 is on a mapped page. */
  ghost predicate StackCovers(s: Space, addr: int) {
    && OnPage(addr, s.stackLow)
    && forall a, p :: addr <= a < VMEM_1_LIMIT && OnPage(a, p) ==> 0 <= p < |s.table| && s.table[p].valid
  }

  lemma MovedCovers(s: Space, addr: int, s': Space)
    requires BrkMoved(s, addr, s') && Layout(s')
    ensures BreakCovers(s', addr)
  {
    Rounded(addr);
    forall a, p | s'.heapStart <= a < addr && OnPage(a, p) ensures 0 <= p < |s'.table| && s'.table[p].valid {
      Rounded(a);
      HeapPage(s', a);
    }
  }

  lemma HeapPage(s: Space, a: int)
    requires Layout(s) && s.heapStart <= a < s.brk
    ensures UpPage(s.heapStart) <= DownPage(a) < UpPage(s.brk)
  {
    PageOfStart(UpPage(s.heapStart));
    UpPageMono(s.heapStart, a);
    DivLess(a - VMEM_1_BASE, UpPage(s.brk), PAGESIZE);
  }

  lemma GrownCovers(s: Space, addr: int, s': Space)
    requires StackGrown(s, DownPage(addr), s') && Layout(s') && addr >= VMEM_1_BASE
    ensures StackCovers(s', addr)
  {
    Rounded(addr);
    forall a, p | addr <= a < VMEM_1_LIMIT && OnPage(a, p) ensures 0 <= p < |s'.table| && s'.table[p].valid {
      Rounded(a);
      UpPageMono(addr, a);
      DivLess(a - VMEM_1_BASE, MAX_PT_LEN, PAGESIZE);
    }
  }

  /** ProcessGrowStack succeeded: the pages from `page` up to the stack were mapped. */
  ghost predicate StackGrown(s: Space, page: int, s': Space) {
    s' == s.(table := s'.table, stackLow := s'.stackLow) && s'.stackLow == page && Mapped(s.table, s'.table, page, s.stackLow)
  }

  /** ProcessGrowStack ran out of frames: it leaves the pages it has mapped, from some page above the break up to the stack. */
  ghost predicate StackStuck(s: Space, s': Space) {
    s' == s.(table := s'.table) && exists page :: UpPage(s.brk) < page <= s.stackLow && Mapped(s.table, s'.table, page, s.stackLow)
  }

  /** A break between heap start and stack keeps the layout. */
  lemma BrkKeepsLayout(s: Space, addr: int, s': Space)
    requires Layout(s) && s.heapStart <= addr && UpPage(addr) < s.stackLow && BrkMoved(s, addr, s')
    ensures Layout(s')
  {
    UpPageMono(s.heapStart, addr);
    PageOfStart(UpPage(addr));
  }

  /** A stack that grows and stays above the page after the break keeps the layout. */
  lemma GrowthKeepsLayout(s: Space, page: int, s': Space)
    requires Layout(s) && UpPage(s.brk) < page < s.stackLow && StackGrown(s, page, s')
    ensures Layout(s')
  {
  }

  lemma StuckShaped(s: Space, s': Space)
    requires Shaped(s) && StackStuck(s, s')
    ensures Shaped(s')
  {
  }

  /** Growing the break and then shrinking it back restores page table, break and frame table entirely. */
  lemma BrkThereAndBack(f0: seq<bool>, s0: Space, up: int, f1: seq<bool>, s1: Space, f2: seq<bool>, s2: Space)
    requires Layout(s0) && Layout(s1) && Owns(f0, SlotsOf(s0))
    requires UpPage(s0.brk) <= UpPage(up) < s0.stackLow
    requires BrkMoved(s0, up, s1) && Lawful(f0, SlotsOf(s0), f1, SlotsOf(s1))
    requires BrkMoved(s1, s0.brk, s2) && Lawful(f1, SlotsOf(s1), f2, SlotsOf(s2))
    ensures s2 == s0 && f2 == f0
  {
    PageOfStart(UpPage(up));
    assert UpPage(s1.brk) == UpPage(up);
    assert s2.table == s0.table;
    LawfulTrans(f0, SlotsOf(s0), f1, SlotsOf(s1), f2, SlotsOf(s2));
    SameSlotsSameFrames(f0, f2, SlotsOf(s0));
  }

  class AddressSpace {
    const table: array<Pte>
    const kstack: array<nat>
    var brk: nat
    var heapStart: nat
    var stackLow: nat

    function State(): Space
      reads this, table, kstack
    {
      Space(table[..], kstack[..], brk, heapStart, stackLow)
    }

    /** The parts of a PCB and its page table that calloc clears. */
    constructor ()
      ensures fresh(table) && fresh(kstack) && Shaped(State())
      ensures (forall i :: 0 <= i < MAX_PT_LEN ==> table[i] == NoPte) && forall i :: 0 <= i < KSTACK_PAGES ==> kstack[i] == 0
    {
      table := new Pte[MAX_PT_LEN](_ => NoPte);
      kstack := new nat[KSTACK_PAGES](_ => 0);
      brk, heapStart, stackLow := 0, 0, 0;
    }

    // ---------- kernel stacks ----------

    /** The slots while only the first n kernel-stack frames are taken. */
    ghost function Partial(n: nat): Slots
      reads table, kstack
    {
      TableSlots(table[..]) + seq(kstack.Length, i requires 0 <= i < kstack.Length reads kstack => if i < n then Some(kstack[i]) else None)
    }

    /** The roll-back of ProcessAllocKernelStack. */
    method FreeFirst(mem: PhysicalMemory, n: nat, ghost f0: seq<bool>, ghost p0: Slots)
      requires n <= kstack.Length && Partial(0) == p0 && Lawful(f0, p0, mem.frames[..], Partial(n))
      modifies mem.frames
      ensures Lawful(f0, p0, mem.frames[..], p0)
    {
      var i := n;
      while i > 0
        invariant 0 <= i <= n && Lawful(f0, p0, mem.frames[..], Partial(i))
      {
        i := i - 1;
        ghost var f2, p2 := mem.frames[..], Partial(i + 1);
        assert p2[table.Length + i] == Some(kstack[i]);
        Drop(f2, p2, table.Length + i);
        mem.FrameFree(kstack[i]);
        assert Partial(i) == p2[table.Length + i := None];
        LawfulTrans(f0, p0, f2, p2, mem.frames[..], Partial(i));
      }
    }

    /** ProcessAllocKernelStack, with its roll-back. Frame 0 is never free, so no slot can hold it. */
    method AllocKernelStack(mem: PhysicalMemory) returns (rc: int)
      requires Owns(mem.frames[..], Partial(0)) && mem.frames.Length > 0 && mem.frames[0]
      modifies mem.frames, kstack
      ensures rc == SUCCESS || rc == ERROR
      ensures rc == ERROR ==> mem.frames[..] == old(mem.frames[..])
      ensures rc == SUCCESS <==> kstack.Length <= |FreeFrames(old(mem.frames[..]))|
      ensures rc == SUCCESS ==> |FreeFrames(mem.frames[..])| == |FreeFrames(old(mem.frames[..]))| - kstack.Length
      ensures rc == SUCCESS ==> forall i :: 0 <= i < kstack.Length ==> kstack[i] != 0
      ensures rc == SUCCESS ==> Lawful(old(mem.frames[..]), old(Partial(0)), mem.frames[..], SlotsOf(State()))
      ensures rc == SUCCESS ==> LowestTaken(old(mem.frames[..]), mem.frames[..])
    {
      hide Lawful, Owns, FreeFrames, Shaped;
      ghost var f0, p0 := mem.frames[..], Partial(0);
      LawfulRefl(f0, p0);
      var i := 0;
      while i < kstack.Length
        invariant 0 <= i <= kstack.Length
        invariant forall j :: 0 <= j < i ==> kstack[j] != 0
        invariant Partial(0) == p0 && Lawful(f0, p0, mem.frames[..], Partial(i))
        invariant mem.frames[0] && LowestTaken(f0, mem.frames[..])
        invariant |FreeFrames(mem.frames[..])| == |FreeFrames(f0)| - i
      {
        ghost var f1, p1 := mem.frames[..], Partial(i);
        LawfulOwns(f0, p0, f1, p1);
        var pfn := mem.FrameAlloc();
        if pfn.None? {
          NothingFree(f1);
          FreeFirst(mem, i, f0, p0);
          SameSlotsSameFrames(f0, mem.frames[..], p0);
          return ERROR;
        }
        Claim(f1, p1, table.Length + i, pfn.value);
        TakingOne(f1, pfn.value);
        kstack[i] := pfn.value;
        assert Partial(i + 1) == p1[table.Length + i := Some(pfn.value)];
        LawfulTrans(f0, p0, f1, p1, mem.frames[..], Partial(i + 1));
        i := i + 1;
      }
      assert Partial(kstack.Length) == SlotsOf(State());
      rc := SUCCESS;
    }

    /** ProcessFreeKernelStack */
    method FreeKernelStack(mem: PhysicalMemory)
      requires Owns(mem.frames[..], SlotsOf(State()))
      modifies mem.frames, kstack
      ensures forall i :: 0 <= i < kstack.Length ==> kstack[i] == 0
      ensures Lawful(old(mem.frames[..]), SlotsOf(old(State())), mem.frames[..], SlotsOf(State()))
    {
      hide Owns, Lawful;
      ghost var f0, s0 := mem.frames[..], SlotsOf(State());
      LawfulRefl(f0, s0);
      var i := 0;
      while i < kstack.Length
        invariant 0 <= i <= kstack.Length
        invariant forall j :: 0 <= j < i ==> kstack[j] == 0
        invariant Lawful(f0, s0, mem.frames[..], SlotsOf(State()))
      {
        if kstack[i] != 0 {
          ghost var f1, s1 := mem.frames[..], SlotsOf(State());
          assert s1[table.Length + i] == Some(kstack[i]);
          LawfulOwns(f0, s0, f1, s1);
          SlotInRange(f1, s1, table.Length + i);
          Drop(f1, s1, table.Length + i);
          mem.FrameFree(kstack[i]);
          kstack[i] := 0;
          assert SlotsOf(State()) == s1[table.Length + i := None];
          LawfulTrans(f0, s0, f1, s1, mem.frames[..], SlotsOf(State()));
        }
        i := i + 1;
      }
    }

    // ---------- the break and the stack ----------

    /** SysBrk */
    method SysBrk(mem: PhysicalMemory, addr: int) returns (rc: int)
      requires (heapStart == 0 || Layout(State())) && Owns(mem.frames[..], SlotsOf(State()))
      modifies mem.frames, table, this`brk
      ensures rc == SUCCESS || rc == ERROR
      ensures rc == ERROR ==> State() == old(State()) && mem.frames[..] == old(mem.frames[..])
      ensures rc == SUCCESS ==> BrkMoved(old(State()), addr, State()) && BreakCovers(State(), addr)
      ensures rc == SUCCESS <==>
        && heapStart != 0 && heapStart <= addr < VMEM_1_LIMIT && UpPage(addr) < stackLow
        && UpPage(addr) <= UpPage(old(brk)) + |FreeFrames(old(mem.frames[..]))|
      ensures heapStart == 0 || Layout(State())
      ensures Lawful(old(mem.frames[..]), SlotsOf(old(State())), mem.frames[..], SlotsOf(State()))
    {
      if heapStart == 0 || addr < heapStart || addr >= VMEM_1_LIMIT {
        return ERROR;
      }
      UpPageMono(heapStart, addr);
      var oldPage, newPage := UpPage(brk), UpPage(addr);
      if newPage >= stackLow {
        return ERROR;
      }
      ghost var s0, rest := State(), StackSlots(kstack[..]);
      var ok := mem.GrowPages(table, oldPage, newPage, rest);
      if !ok {
        return ERROR;
      }
      ghost var f1, t1 := mem.frames[..], table[..];
      assert Canonical(table[..]);
      mem.ShrinkPages(table, newPage, oldPage, rest);
      LawfulTrans(old(mem.frames[..]), TableSlots(s0.table) + rest, f1, TableSlots(t1) + rest, mem.frames[..], TableSlots(table[..]) + rest);
      PageOfStart(newPage);
      MulMono(0, newPage, PAGESIZE);
      brk := PageStart(newPage);
      hide BreakCovers, Lawful, Owns;
      BrkKeepsLayout(s0, addr, State());
      MovedCovers(s0, addr, State());
      rc := SUCCESS;
    }

    /** ProcessGrowStack: a failure half-way leaves the pages it has mapped. */
    method GrowStack(mem: PhysicalMemory, addr: int) returns (rc: int)
      requires Layout(State()) && Owns(mem.frames[..], SlotsOf(State()))
      modifies mem.frames, table, this`stackLow
      ensures rc == SUCCESS || rc == ERROR
      ensures rc == SUCCESS <==>
        && VMEM_1_BASE <= addr < VMEM_1_LIMIT && UpPage(brk) < DownPage(addr) < old(stackLow)
        && old(stackLow) <= DownPage(addr) + |FreeFrames(old(mem.frames[..]))|
      ensures rc == SUCCESS ==> StackGrown(old(State()), DownPage(addr), State()) && Layout(State()) && StackCovers(State(), addr)
      ensures rc == ERROR ==> StackStuck(old(State()), State())
      ensures Shaped(State())
      ensures Lawful(old(mem.frames[..]), SlotsOf(old(State())), mem.frames[..], SlotsOf(State()))
    {
      if addr < VMEM_1_BASE || addr >= VMEM_1_LIMIT {
        assert Mapped(old(table[..]), table[..], stackLow, stackLow);
        return ERROR;
      }
      var faultPage, brkPage := DownPage(addr), UpPage(brk);
      if faultPage >= stackLow || faultPage <= brkPage {
        assert Mapped(old(table[..]), table[..], stackLow, stackLow);
        return ERROR;
      }
      ghost var s0, rest := State(), StackSlots(kstack[..]);
      var page: int := stackLow;
      while page > faultPage
        invariant faultPage <= page <= stackLow
        invariant Mapped(s0.table, table[..], page, stackLow)
        invariant |FreeFrames(mem.frames[..])| == |FreeFrames(old(mem.frames[..]))| - (stackLow - page)
        invariant Lawful(old(mem.frames[..]), SlotsOf(s0), mem.frames[..], TableSlots(table[..]) + rest)
        modifies mem.frames, table
      {
        ghost var f1, t1 := mem.frames[..], table[..];
        var ok := mem.Obtain(table, page - 1, ReadWrite, rest);
        LawfulTrans(old(mem.frames[..]), SlotsOf(s0), f1, TableSlots(t1) + rest, mem.frames[..], TableSlots(table[..]) + rest);
        if !ok {
          return ERROR;
        }
        page := page - 1;
      }
      stackLow := faultPage;
      GrowthKeepsLayout(s0, faultPage, State());
      GrownCovers(s0, addr, State());
      rc := SUCCESS;
    }

    // ---------- fork ----------

    /** A copy that runs out of memory frees the pages it has. */
    method GiveUp(mem: PhysicalMemory, ghost f0: seq<bool>, ghost s0: Space)
      requires Lawful(f0, SlotsOf(s0), mem.frames[..], SlotsOf(State())) && Owns(f0, SlotsOf(s0))
      requires s0.kstack == kstack[..] && |s0.table| == table.Length && Canonical(table[..])
      requires forall i :: 0 <= i < |s0.table| ==> s0.table[i] == NoPte
      modifies mem.frames, table
      ensures table[..] == s0.table && mem.frames[..] == f0
    {
      ghost var f2, t2, rest := mem.frames[..], table[..], StackSlots(kstack[..]);
      mem.FreePageTableFrames(table, rest);
      LawfulTrans(f0, SlotsOf(s0), f2, TableSlots(t2) + rest, mem.frames[..], TableSlots(table[..]) + rest);
      assert table[..] == s0.table;
      SameSlotsSameFrames(f0, mem.frames[..], SlotsOf(s0));
    }

    /** One round of the loop of ProcessCopyRegion1: the scratch page makes the new frame writable. */
    method CopyPage(mem: PhysicalMemory, src: AddressSpace, kernel: array<Pte>, i: nat, ghost rest: Slots) returns (ok: bool)
      requires mem.Valid() && i < table.Length && i < src.table.Length && src.table != table
      requires kernel.Length > 0 && kernel != table && kernel != src.table
      requires table[i] == NoPte && src.table[i].valid && src.table[i].pfn < mem.frames.Length && mem.frames[src.table[i].pfn]
      requires Owns(mem.frames[..], TableSlots(table[..]) + rest)
      modifies mem.frames, mem.pages, table, kernel
      ensures ok <==> |FreeFrames(old(mem.frames[..]))| > 0
      ensures !ok ==> table[..] == old(table[..]) && mem.frames[..] == old(mem.frames[..]) && mem.pages[..] == old(mem.pages[..])
      ensures kernel[..] == if ok then old(kernel[..])[kernel.Length - 1 := Pte(true, ReadWrite, table[i].pfn)] else old(kernel[..])
      ensures ok ==>
        && table[..] == old(table[..])[i := table[i]] && table[i].valid && table[i].prot == src.table[i].prot
        && table[i].pfn < mem.frames.Length && !old(mem.frames[..])[table[i].pfn]
        && (forall f :: 0 <= f < table[i].pfn ==> old(mem.frames[..])[f])
        && mem.frames[..] == old(mem.frames[..])[table[i].pfn := true]
        && mem.pages[..] == old(mem.pages[..])[table[i].pfn := mem.pages[src.table[i].pfn]]
        && |FreeFrames(mem.frames[..])| == |FreeFrames(old(mem.frames[..]))| - 1
      ensures Lawful(old(mem.frames[..]), TableSlots(old(table[..])) + rest, mem.frames[..], TableSlots(table[..]) + rest)
    {
      ok := mem.Obtain(table, i, src.table[i].prot, rest);
      if ok {
        var scratch := kernel.Length - 1;
        var rc := MapPage(kernel, scratch, table[i].pfn, ReadWrite);
        mem.pages[kernel[scratch].pfn] := mem.pages[src.table[i].pfn];
      }
    }

    /**
     * ProcessCopyRegion1 into this address space, `src` being the running process and `kernel` the pages of Region 0
     * below the kernel stack. A copy that runs out of memory returns without unmapping the scratch page: unless it
     * had no frame at all, the page's entry goes on naming the last frame it was given, which is free again.
     */
    method CopyRegion1(mem: PhysicalMemory, src: AddressSpace, kernel: array<Pte>) returns (rc: int)
      requires mem.Valid() && src.table != table && src.kstack != kstack && src.table.Length == table.Length == MAX_PT_LEN
      requires kernel.Length > 0 && kernel != table && kernel != src.table
      requires forall i :: 0 <= i < table.Length ==> table[i] == NoPte
      requires Owns(mem.frames[..], SlotsOf(State())) && Owns(mem.frames[..], SlotsOf(src.State()))
      modifies mem.frames, mem.pages, table, kernel
      ensures rc == SUCCESS || rc == ERROR
      ensures rc == SUCCESS ==> Copied(src.table[..], table[..], mem.pages[..], MAX_PT_LEN)
      ensures rc == SUCCESS <==> |Pages(src.table[..])| <= |FreeFrames(old(mem.frames[..]))|
      ensures rc == ERROR ==> table[..] == old(table[..]) && mem.frames[..] == old(mem.frames[..])
      ensures ScratchUsed(old(mem.frames[..]), old(kernel[..]), kernel[..], rc == SUCCESS)
      ensures PagesKept(old(mem.frames[..]), old(mem.pages[..]), mem.pages[..])
      ensures Lawful(old(mem.frames[..]), SlotsOf(old(State())), mem.frames[..], SlotsOf(State()))
    {
      hide Lawful, Owns, FreeFrames, Pages, Copied, PagesKept, TakenBelow, ScratchAt, ScratchUsed, OnLastFree;
      ghost var f0, g0, k0, s0, rest := mem.frames[..], mem.pages[..], kernel[..], State(), StackSlots(kstack[..]);
      ghost var taken: nat := 0;
      SourceAllocated(f0, src.State());
      NothingCopied(src.table[..], table[..], f0, g0, k0);
      LawfulRefl(f0, SlotsOf(s0));
      var i := 0;
      while i < MAX_PT_LEN
        invariant 0 <= i <= MAX_PT_LEN
        invariant Copying(src.table[..], table[..], mem.frames[..], mem.pages[..], i, f0, g0)
        invariant |FreeFrames(mem.frames[..])| == |FreeFrames(f0)| - |Pages(src.table[..i])| >= 0
        invariant Lawful(f0, SlotsOf(s0), mem.frames[..], TableSlots(table[..]) + rest)
        invariant TakenBelow(f0, mem.frames[..], taken) && ScratchAt(f0, k0, kernel[..], taken)
      {
        PagesUpTo(src.table[..], i);
        ghost var f1, t1, g1, k1 := mem.frames[..], table[..], mem.pages[..], kernel[..];
        if src.table[i].valid {
          LawfulOwns(f0, SlotsOf(s0), f1, TableSlots(t1) + rest);
          var got := CopyPage(mem, src, kernel, i, rest);
          LawfulTrans(f0, SlotsOf(s0), f1, TableSlots(t1) + rest, mem.frames[..], TableSlots(table[..]) + rest);
          if !got {
            CopyIsCanonical(src.table[..], t1, f1, g1, i, f0, g0);
            GiveUp(mem, f0, s0);
            KeptOf(src.table[..], t1, f1, g1, i, f0, g0);
            StaysBehind(f0, f1, k0, k1, taken);
            return ERROR;
          }
          CopiedNext(src.table[..], t1, f1, g1, i, f0, g0, table[i]);
          TakenNext(f0, f1, k0, k1, taken, table[i].pfn);
          taken := table[i].pfn + 1;
        } else {
          SkippedNext(src.table[..], t1, f1, g1, i, f0, g0);
        }
        i := i + 1;
      }
      assert src.table[..MAX_PT_LEN] == src.table[..];
      AllCopied(f0, k0, kernel[..], taken);
      UnmapPage(kernel, kernel.Length - 1);
      rc := SUCCESS;
    }
  }

  // ---------- the scratch page ----------

  /** Frames were taken from f0 lowest first: what is free now is above what has been taken. */
  ghost predicate LowestTaken(f0: seq<bool>, frames: seq<bool>) {
    |frames| == |f0| && (forall f :: 0 <= f < |f0| && f0[f] ==> frames[f]) &&
    forall f, g :: 0 <= f < |f0| && 0 <= g < |f0| && !f0[f] && frames[f] && !frames[g] ==> f < g
  }

  /** Of the frames of f0 those below n have been taken, and no others. */
  ghost predicate TakenBelow(f0: seq<bool>, frames: seq<bool>, n: nat) {
    |frames| == |f0| && forall f :: 0 <= f < |f0| ==> if f < n then frames[f] else frames[f] == f0[f]
  }

  /** The entry is that of a writable page on the last of the free frames. */
  ghost predicate OnLastFree(frames: seq<bool>, pte: Pte) {
    && pte.valid && pte.prot == ReadWrite && pte.pfn < |frames| && !frames[pte.pfn]
    && forall f :: pte.pfn < f < |frames| ==> frames[f]
  }

  /** What copying the pages of a process does to the pages of Region 0: nothing except to the scratch page. */
  ghost predicate ScratchUsed(frames: seq<bool>, kernel: seq<Pte>, kernel': seq<Pte>, ok: bool) {
    && |kernel'| == |kernel| > 0
    && var scratch := |kernel| - 1;
       if ok then kernel' == kernel[scratch := NoPte]
       else if |FreeFrames(frames)| == 0 then kernel' == kernel
       else kernel' == kernel[scratch := kernel'[scratch]] && OnLastFree(frames, kernel'[scratch])
  }

  /** The scratch page is on the last frame taken, if any was. */
  ghost predicate ScratchAt(f0: seq<bool>, k0: seq<Pte>, kernel: seq<Pte>, taken: nat) {
    && |k0| > 0 && taken <= |f0|
    && if taken == 0 then kernel == k0 else kernel == k0[|k0| - 1 := Pte(true, ReadWrite, taken - 1)] && !f0[taken - 1]
  }

  lemma NothingCopied(src: seq<Pte>, dst: seq<Pte>, frames: seq<bool>, pages: seq<Page>, kernel: seq<Pte>)
    requires |src| == |dst| && |frames| == |pages| && |kernel| > 0 && forall i :: 0 <= i < |dst| ==> dst[i] == NoPte
    requires forall i :: 0 <= i < |src| && src[i].valid ==> src[i].pfn < |frames| && frames[src[i].pfn]
    ensures Copying(src, dst, frames, pages, 0, frames, pages) && |Pages(src[..0])| == 0
    ensures TakenBelow(frames, frames, 0) && ScratchAt(frames, kernel, kernel, 0)
  {
  }

  lemma AllCopied(f0: seq<bool>, k0: seq<Pte>, kernel: seq<Pte>, taken: nat)
    requires ScratchAt(f0, k0, kernel, taken)
    ensures |kernel| == |k0| > 0 && ScratchUsed(f0, k0, kernel[|k0| - 1 := NoPte], true)
  {
  }

  lemma TakenNext(f0: seq<bool>, frames: seq<bool>, k0: seq<Pte>, kernel: seq<Pte>, taken: nat, f: nat)
    requires TakenBelow(f0, frames, taken) && ScratchAt(f0, k0, kernel, taken)
    requires f < |frames| && !frames[f] && forall g :: 0 <= g < f ==> frames[g]
    ensures TakenBelow(f0, frames[f := true], f + 1)
    ensures ScratchAt(f0, k0, kernel[|k0| - 1 := Pte(true, ReadWrite, f)], f + 1)
  {
    assert f >= taken;
  }

  /** When no frame is left, the last frame taken is the last one that was free. */
  lemma StaysBehind(f0: seq<bool>, frames: seq<bool>, k0: seq<Pte>, kernel: seq<Pte>, taken: nat)
    requires TakenBelow(f0, frames, taken) && ScratchAt(f0, k0, kernel, taken) && |FreeFrames(frames)| == 0
    ensures ScratchUsed(f0, k0, kernel, false)
  {
    forall f | 0 <= f < |frames| ensures frames[f] {
      assert f !in FreeFrames(frames);
    }
    if taken == 0 {
      assert frames == f0;
    } else {
      assert taken - 1 in FreeFrames(f0);
    }
  }

  /** The last free frame is the same before the kernel stack is taken. */
  lemma SameLastFree(f0: seq<bool>, frames: seq<bool>, pte: Pte)
    requires LowestTaken(f0, frames) && OnLastFree(frames, pte)
    ensures OnLastFree(f0, pte)
  {
  }

  // ---------- the copy ----------

  /** The first n pages of dst have the validity and protection of those of src, and their bytes. */
  ghost predicate Copied(src: seq<Pte>, dst: seq<Pte>, pages: seq<Page>, n: nat) {
    n <= |src| && n <= |dst| && forall i :: 0 <= i < n ==>
      if src[i].valid then
        && dst[i].valid && dst[i].prot == src[i].prot
        && dst[i].pfn < |pages| && src[i].pfn < |pages| && pages[dst[i].pfn] == pages[src[i].pfn]
      else dst[i] == NoPte
  }

  /** No frame that was allocated has changed its contents. */
  ghost predicate PagesKept(frames: seq<bool>, pages: seq<Page>, pages': seq<Page>) {
    |pages'| == |pages| && forall f :: 0 <= f < |frames| && f < |pages| && frames[f] ==> pages'[f] == pages[f]
  }

  /** The loop of ProcessCopyRegion1 has reached page n; f0 and g0 are frame table and contents at its start. */
  ghost predicate Copying(src: seq<Pte>, dst: seq<Pte>, frames: seq<bool>, pages: seq<Page>, n: nat, f0: seq<bool>, g0: seq<Page>) {
    && n <= |src| == |dst| && |frames| == |f0| == |pages| == |g0|
    && Copied(src, dst, pages, n) && PagesKept(f0, g0, pages)
    && (forall j :: n <= j < |dst| ==> dst[j] == NoPte)
    && (forall f :: 0 <= f < |f0| && f0[f] ==> frames[f])
    && (forall j :: 0 <= j < |src| && src[j].valid ==> src[j].pfn < |f0| && f0[src[j].pfn])
    && (forall j :: 0 <= j < n && dst[j].valid ==> dst[j].pfn < |f0| && frames[dst[j].pfn])
  }

  lemma CopiedNext(src: seq<Pte>, dst: seq<Pte>, frames: seq<bool>, pages: seq<Page>, n: nat, f0: seq<bool>, g0: seq<Page>, pte: Pte)
    requires Copying(src, dst, frames, pages, n, f0, g0) && n < |src| && src[n].valid
    requires pte.valid && pte.prot == src[n].prot && pte.pfn < |frames| && !frames[pte.pfn]
    ensures Copying(src, dst[n := pte], frames[pte.pfn := true], pages[pte.pfn := pages[src[n].pfn]], n + 1, f0, g0)
  {
  }

  lemma SkippedNext(src: seq<Pte>, dst: seq<Pte>, frames: seq<bool>, pages: seq<Page>, n: nat, f0: seq<bool>, g0: seq<Page>)
    requires Copying(src, dst, frames, pages, n, f0, g0) && n < |src| && !src[n].valid
    ensures Copying(src, dst, frames, pages, n + 1, f0, g0)
  {
  }

  lemma CopyIsCanonical(src: seq<Pte>, dst: seq<Pte>, frames: seq<bool>, pages: seq<Page>, n: nat, f0: seq<bool>, g0: seq<Page>)
    requires Copying(src, dst, frames, pages, n, f0, g0)
    ensures Canonical(dst)
  {
  }

  lemma KeptOf(src: seq<Pte>, dst: seq<Pte>, frames: seq<bool>, pages: seq<Page>, n: nat, f0: seq<bool>, g0: seq<Page>)
    requires Copying(src, dst, frames, pages, n, f0, g0)
    ensures PagesKept(f0, g0, pages)
  {
  }

  lemma PagesUpTo(table: seq<Pte>, i: nat)
    requires i < |table|
    ensures |Pages(table[..i + 1])| == |Pages(table[..i])| + (if table[i].valid then 1 else 0)
    ensures |Pages(table[..i + 1])| <= |Pages(table)|
  {
    var upTo, next := Pages(table[..i]), Pages(table[..i + 1]);
    assert next == if table[i].valid then upTo + {i} else upTo;
    assert next <= Pages(table);
    SubsetSize(next, Pages(table));
  }

  lemma SubsetSize<T>(a: set<T>, b: set<T>)
    requires a <= b
    ensures |a| <= |b|
  {
    assert b == a + (b - a);
  }

  lemma SourceAllocated(frames: seq<bool>, src: Space)
    requires Owns(frames, SlotsOf(src))
    ensures forall i :: 0 <= i < |src.table| && src.table[i].valid ==> src.table[i].pfn < |frames| && frames[src.table[i].pfn]
  {
    forall i | 0 <= i < |src.table| && src.table[i].valid ensures src.table[i].pfn < |frames| && frames[src.table[i].pfn] {
      assert SlotsOf(src)[i] == Some(src.table[i].pfn);
    }
  }
}
