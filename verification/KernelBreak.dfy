/** The kernel's own heap: SetKernelBrk of src/kernelbrk.c, once virtual memory is on. */
module KernelBreak {
  import opened Common
  import opened FrameOwnership
  import opened PageTables
  import AddressSpaces

  /** UP_TO_PAGE(addr) >> PAGESHIFT, in Region 0. */
  function UpPage0(addr: nat): (page: nat) {
    (addr + PAGESIZE - 1) / PAGESIZE
  }

  /** The page the break is to be at: never below the kernel's image. */
  function Requested(addr: nat, origBrk: nat): nat {
    if UpPage0(addr) < origBrk then origBrk else UpPage0(addr)
  }

  /** The kernel's heap as a value: the pages of Region 0 below the kernel stack, the last of them the scratch page, and the break. */
  datatype Heap = Heap(table: seq<Pte>, brkPage: nat, origBrk: nat)

  /** The frames the kernel holds below its break. Above it only the scratch page is used, for frames of somebody else's. */
  function HeapSlots(h: Heap): Slots {
    TableSlots(if h.brkPage <= |h.table| then h.table[..h.brkPage] else h.table)
  }

  /**
   * The image ends below the scratch page, the heap reaches from the image to the break, and between the break and
   * the scratch page nothing is mapped. What the scratch page's entry says while it is above the break is left open.
   */
  ghost predicate HeapRight(h: Heap) {
    && h.origBrk < |h.table| && h.origBrk <= h.brkPage <= |h.table| && Canonical(h.table)
    && (forall i :: h.origBrk <= i < h.brkPage ==> h.table[i].valid)
    && (forall i :: h.brkPage <= i < |h.table| - 1 ==> h.table[i] == NoPte)
  }

  /** Address a lies on Region 0 page p. */
  predicate OnPage0(a: int, p: int) {
    0 <= a - p * PAGESIZE < PAGESIZE
  }

  /**
   * The break is the first page start that is not below addr, or the end of the kernel's image if that is higher, and
   * every address from there up to addr is on a mapped page.
   */
  ghost predicate HeapCovers(h: Heap, addr: nat) {
    && addr <= h.brkPage * PAGESIZE && h.origBrk <= h.brkPage && (h.brkPage * PAGESIZE < addr + PAGESIZE || h.brkPage == h.origBrk)
    && forall a, p :: h.origBrk * PAGESIZE <= a < addr && OnPage0(a, p) ==> 0 <= p < |h.table| && h.table[p].valid
  }

  lemma Rounded0(addr: nat)
    ensures addr <= UpPage0(addr) * PAGESIZE < addr + PAGESIZE
  {
  }

  lemma RequestCovers(h: Heap, addr: nat)
    requires HeapRight(h) && h.brkPage == Requested(addr, h.origBrk)
    ensures HeapCovers(h, addr)
  {
    Rounded0(addr);
    MulMono(UpPage0(addr), h.brkPage, PAGESIZE);
    forall a, p | h.origBrk * PAGESIZE <= a < addr && OnPage0(a, p) ensures h.origBrk <= p < h.brkPage {
      PageBetween(a, p, h.origBrk, h.brkPage);
    }
  }

  lemma PageBetween(a: int, p: int, lo: nat, hi: nat)
    requires lo * PAGESIZE <= a < hi * PAGESIZE && OnPage0(a, p)
    ensures lo <= p < hi
  {
    assert (p + 1) * PAGESIZE == p * PAGESIZE + PAGESIZE;
    if p < lo {
      MulMono(p + 1, lo, PAGESIZE);
    } else if p >= hi {
      MulMono(hi, p, PAGESIZE);
    }
  }

  /** SetKernelBrk succeeded: only the pages between the two breaks changed. */
  ghost predicate HeapMoved(h: Heap, page: nat, h': Heap) {
    && h' == h.(table := h'.table, brkPage := page)
    && (if h.brkPage <= page then AddressSpaces.Mapped(h.table, h'.table, h.brkPage, page)
        else AddressSpaces.Unmapped(h.table, h'.table, page, h.brkPage))
  }

  /**
   * Growing the heap and shrinking it back to the same page restores the frame table, and the page table except
   * for an entry that was left in the scratch page.
   */
  lemma HeapThereAndBack(f0: seq<bool>, h0: Heap, page: nat, f1: seq<bool>, h1: Heap, f2: seq<bool>, h2: Heap)
    requires HeapRight(h0) && Owns(f0, HeapSlots(h0)) && h0.brkPage <= page <= |h0.table|
    requires HeapMoved(h0, page, h1) && Lawful(f0, HeapSlots(h0), f1, HeapSlots(h1))
    requires HeapMoved(h1, h0.brkPage, h2) && Lawful(f1, HeapSlots(h1), f2, HeapSlots(h2))
    ensures f2 == f0
    ensures h2 == h0 <==> h0.brkPage == page || page < |h0.table| || h0.table[|h0.table| - 1] == NoPte
  {
    var scratch := |h0.table| - 1;
    assert h2.table[..h0.brkPage] == h0.table[..h0.brkPage];
    LawfulTrans(f0, HeapSlots(h0), f1, HeapSlots(h1), f2, HeapSlots(h2));
    SameSlotsSameFrames(f0, f2, HeapSlots(h0));
    if h0.brkPage < page == |h0.table| {
      assert h2.table[scratch] == NoPte;
    }
    if h0.brkPage == page || page < |h0.table| || h0.table[scratch] == NoPte {
      assert h2.table == h0.table;
    }
  }

  lemma NotBelowImage(addr: nat, origBrk: nat)
    ensures Requested(addr, origBrk) >= origBrk
  {
  }

  /** Moving the break keeps the heap as it should be, and the kernel's image. */
  lemma MovedRight(h: Heap, page: nat, h': Heap)
    requires HeapRight(h) && HeapMoved(h, page, h') && h.origBrk <= page <= |h.table|
    ensures HeapRight(h') && h'.origBrk == h.origBrk && h'.table[..h.origBrk] == h.table[..h.origBrk]
  {
  }

  /** Pages that are not mapped add nothing to what is held. */
  lemma Trimmed(frames: seq<bool>, table: seq<Pte>, n: nat, m: nat)
    requires n <= m <= |table| && forall i :: n <= i < m ==> !table[i].valid
    ensures HeldBy(TableSlots(table[..m])) == HeldBy(TableSlots(table[..n]))
    ensures Owns(frames, TableSlots(table[..m])) <==> Owns(frames, TableSlots(table[..n]))
  {
    assert TableSlots(table[..m]) == TableSlots(table[..n]) + TableSlots(table[n..m]);
    EmptySlots(frames, TableSlots(table[..n]), TableSlots(table[n..m]));
  }

  lemma OneSlotMore(table: seq<Pte>, n: nat)
    requires n < |table|
    ensures TableSlots(table[..n + 1]) == TableSlots(table[..n]) + [SlotOf(table[n])]
  {
  }

  function Higher(a: nat, b: nat): nat {
    if a <= b then b else a
  }

  class KernelHeap {
    /** Region 0 below the kernel stack; the last page is the scratch page. */
    const table: array<Pte>
    const origBrk: nat
    var brkPage: nat

    function State(): Heap
      reads this, table
    {
      Heap(table[..], brkPage, origBrk)
    }

    /** KERNEL_STACK_BASE >> PAGESHIFT */
    function StackBase(): nat {
      table.Length
    }

    constructor (table: array<Pte>, origBrk: nat, brkPage: nat)
      ensures this.table == table && this.origBrk == origBrk && this.brkPage == brkPage
    {
      this.table, this.origBrk, this.brkPage := table, origBrk, brkPage;
    }

    /** Maps the pages from lo up to hi, whatever the entry of the scratch page says, or leaves everything as it was. */
    method Grow(mem: PhysicalMemory, lo: nat, hi: nat) returns (ok: bool)
      requires lo <= table.Length && hi <= table.Length && Owns(mem.frames[..], TableSlots(table[..lo]))
      requires forall i :: lo <= i < table.Length - 1 ==> table[i] == NoPte
      modifies mem.frames, table
      ensures !ok ==> table[..] == old(table[..]) && mem.frames[..] == old(mem.frames[..])
      ensures ok ==> forall i :: 0 <= i < table.Length ==>
        if lo <= i < hi then table[i].valid && table[i].prot == ReadWrite else table[i] == old(table[i])
      ensures ok <==> lo + |FreeFrames(old(mem.frames[..]))| >= hi
      ensures ok ==> Lawful(old(mem.frames[..]), TableSlots(old(table[..lo])), mem.frames[..], TableSlots(table[..Higher(lo, hi)]))
    {
      hide Owns, Lawful, FreeFrames;
      ghost var f0, s0 := mem.frames[..], TableSlots(table[..lo]);
      LawfulRefl(f0, s0);
      var page := lo;
      while page < hi
        invariant lo <= page <= Higher(lo, hi)
        invariant forall i :: 0 <= i < table.Length ==>
          if lo <= i < page then table[i].valid && table[i].prot == ReadWrite else table[i] == old(table[i])
        invariant |FreeFrames(mem.frames[..])| == |FreeFrames(f0)| - (page - lo)
        invariant Lawful(f0, s0, mem.frames[..], TableSlots(table[..page]))
      {
        ghost var f1, s1 := mem.frames[..], TableSlots(table[..page]);
        LawfulOwns(f0, s0, f1, s1);
        var pfn := mem.FrameAlloc();
        if pfn.None? {
          NothingFree(f1);
          assert table[..lo] == old(table[..lo]);
          TakeBack(mem, lo, page, f0);
          return false;
        }
        ClaimLast(f1, s1, pfn.value);
        TakingOne(f1, pfn.value);
        ghost var t1 := table[..];
        var rc := MapPage(table, page, pfn.value, ReadWrite);
        OneSlotMore(table[..], page);
        assert table[..page] == t1[..page];
        assert table[..][..page + 1] == table[..page + 1] && table[..][..page] == table[..page];
        LawfulTrans(f0, s0, f1, s1, mem.frames[..], TableSlots(table[..page + 1]));
        page := page + 1;
      }
      ok := true;
    }

    /** Takes back the pages from lo up to hi that were mapped, the last one first. */
    method TakeBack(mem: PhysicalMemory, lo: nat, hi: nat, ghost f0: seq<bool>)
      requires lo <= hi <= table.Length && Owns(f0, TableSlots(table[..lo])) && forall i :: lo <= i < hi ==> table[i].valid
      requires Lawful(f0, TableSlots(table[..lo]), mem.frames[..], TableSlots(table[..hi]))
      modifies mem.frames, table
      ensures forall i :: 0 <= i < table.Length ==> table[i] == if lo <= i < hi then NoPte else old(table[i])
      ensures mem.frames[..] == f0
    {
      hide Owns, Lawful, FreeFrames;
      ghost var s0 := TableSlots(table[..lo]);
      var page := hi;
      while page > lo
        invariant lo <= page <= hi
        invariant forall i :: 0 <= i < table.Length ==> table[i] == if page <= i < hi then NoPte else old(table[i])
        invariant Lawful(f0, s0, mem.frames[..], TableSlots(table[..page]))
      {
        page := page - 1;
        ghost var f1, s1, t1 := mem.frames[..], TableSlots(table[..page + 1]), table[..];
        LawfulOwns(f0, s0, f1, s1);
        OneSlotMore(t1, page);
        assert t1[..page + 1] == table[..page + 1] && t1[..page] == table[..page];
        LastHeld(f1, TableSlots(t1[..page]), t1[page].pfn);
        DropLast(f1, TableSlots(t1[..page]), t1[page].pfn);
        mem.FrameFree(table[page].pfn);
        UnmapPage(table, page);
        assert table[..page] == t1[..page];
        LawfulTrans(f0, s0, f1, s1, mem.frames[..], TableSlots(table[..page]));
      }
      assert table[..lo] == old(table[..lo]);
      SameSlotsSameFrames(f0, mem.frames[..], s0);
    }

    /** Gives the mapped pages from lo up to hi back. */
    method Shrink(mem: PhysicalMemory, lo: nat, hi: nat)
      requires lo <= table.Length && hi <= table.Length && Owns(mem.frames[..], TableSlots(table[..Higher(lo, hi)])) && Canonical(table[..])
      modifies mem.frames, table
      ensures forall i :: 0 <= i < table.Length ==> table[i] == if lo <= i < hi then NoPte else old(table[i])
      ensures Lawful(old(mem.frames[..]), TableSlots(old(table[..Higher(lo, hi)])), mem.frames[..], TableSlots(table[..lo]))
    {
      hide Owns, FreeFrames;
      ghost var f0, top := mem.frames[..], Higher(lo, hi);
      ghost var s0 := TableSlots(table[..top]);
      LawfulRefl(f0, s0);
      var page := lo;
      while page < hi
        invariant lo <= page <= top
        invariant forall i :: 0 <= i < table.Length ==> table[i] == if lo <= i < page then NoPte else old(table[i])
        invariant Lawful(f0, s0, mem.frames[..], TableSlots(table[..top]))
      {
        hide Lawful;
        if table[page].valid {
          ghost var f1, s1, t1 := mem.frames[..], TableSlots(table[..top]), table[..];
          LawfulOwns(f0, s0, f1, s1);
          assert s1[page] == Some(table[page].pfn);
          SlotInRange(f1, s1, page);
          Drop(f1, s1, page);
          mem.FrameFree(table[page].pfn);
          UnmapPage(table, page);
          assert TableSlots(table[..top]) == s1[page := None];
          LawfulTrans(f0, s0, f1, s1, mem.frames[..], TableSlots(table[..top]));
        }
        page := page + 1;
      }
      assert table[..][..top] == table[..top] && table[..][..lo] == table[..lo];
      Trimmed(mem.frames[..], table[..], lo, top);
    }

    /** SetKernelBrk: the highest break it accepts takes in the scratch page, whatever is mapped there. */
    method SetKernelBrk(mem: PhysicalMemory, addr: nat) returns (rc: int)
      requires HeapRight(State()) && Owns(mem.frames[..], HeapSlots(State()))
      modifies mem.frames, table, this`brkPage
      ensures rc == SUCCESS || rc == ERROR
      ensures rc == ERROR ==> State() == old(State()) && mem.frames[..] == old(mem.frames[..])
      ensures rc == SUCCESS <==>
        Requested(addr, origBrk) <= StackBase() && Requested(addr, origBrk) <= old(brkPage) + |FreeFrames(old(mem.frames[..]))|
      ensures rc == SUCCESS ==> HeapMoved(old(State()), Requested(addr, origBrk), State()) && HeapCovers(State(), addr)
      ensures HeapRight(State())
      ensures Lawful(old(mem.frames[..]), HeapSlots(old(State())), mem.frames[..], HeapSlots(State()))
    {
      hide Owns, FreeFrames;
      var requested, oldPage := UpPage0(addr), brkPage;
      if requested < origBrk {
        requested := origBrk;
      }
      ghost var f0, s0 := mem.frames[..], HeapSlots(State());
      LawfulRefl(f0, s0);
      if requested > StackBase() {
        return ERROR;
      }
      assert table[..][..oldPage] == table[..oldPage];
      var ok := Grow(mem, oldPage, requested);
      if !ok {
        return ERROR;
      }
      ghost var f1, s1 := mem.frames[..], TableSlots(table[..Higher(oldPage, requested)]);
      LawfulOwns(f0, s0, f1, s1);
      Shrink(mem, requested, oldPage);
      LawfulTrans(f0, s0, f1, s1, mem.frames[..], TableSlots(table[..requested]));
      brkPage := requested;
      assert table[..][..requested] == table[..requested];
      RequestCovers(State(), addr);
      rc := SUCCESS;
    }
  }

  lemma LastHeld(frames: seq<bool>, slots: Slots, f: nat)
    requires Owns(frames, slots + [Some(f)])
    ensures f < |frames| && frames[f]
  {
    assert (slots + [Some(f)])[|slots|] == Some(f);
  }
}
