/** The frame table, page tables and the loops over them: src/memory.c and the parts its callers share. */
module PageTables {
  import opened Common
  import opened FrameOwnership

  // Sizes from framework headers that are not part of this model.
  const PAGESIZE: Positive
  const MAX_PT_LEN: Positive
  const KSTACK_PAGES: Positive

  datatype Prot = NoAccess | ReadWrite | ReadExec

  datatype Pte = Pte(valid: bool, prot: Prot, pfn: nat)

  /** What calloc and MemoryUnmapPage leave in an entry. */
  const NoPte := Pte(false, NoAccess, 0)

  type Page = seq<Byte>

  function SlotOf(pte: Pte): Option<nat> {
    if pte.valid then Some(pte.pfn) else None
  }

  function TableSlots(table: seq<Pte>): Slots {
    seq(|table|, i requires 0 <= i < |table| => SlotOf(table[i]))
  }

  /** An invalid entry is all zero. */
  ghost predicate Canonical(table: seq<Pte>) {
    forall i :: 0 <= i < |table| && !table[i].valid ==> table[i] == NoPte
  }

  /** The mapped pages. */
  function Pages(table: seq<Pte>): set<nat> {
    set i | 0 <= i < |table| && table[i].valid
  }

  lemma PagesAfter(table: seq<Pte>, i: nat, pte: Pte)
    requires i < |table|
    ensures |Pages(table[i := pte])| == |Pages(table)| - (if table[i].valid then 1 else 0) + (if pte.valid then 1 else 0)
  {
    var now := table[i := pte];
    if table[i].valid {
      assert Pages(now) == if pte.valid then Pages(table) else Pages(table) - {i};
    } else {
      assert Pages(now) == if pte.valid then Pages(table) + {i} else Pages(table);
    }
  }

  /** Free frames and mapped pages make up the same number as before: no frame was lost or made up. */
  ghost predicate Balanced(frames: seq<bool>, table: seq<Pte>, frames': seq<bool>, table': seq<Pte>) {
    |FreeFrames(frames')| + |Pages(table')| == |FreeFrames(frames)| + |Pages(table)|
  }

  lemma SetSlot(table: seq<Pte>, rest: Slots, i: nat, pte: Pte)
    requires i < |table|
    ensures TableSlots(table[i := pte]) + rest == (TableSlots(table) + rest)[i := SlotOf(pte)]
  {
  }

  lemma NoneHeld(slots: Slots)
    requires forall i :: 0 <= i < |slots| ==> slots[i].None?
    ensures HeldBy(slots) == {}
  {
  }

  class PhysicalMemory {
    /** frame_allocated, as long as physical_frame_count */
    const frames: array<bool>
    /** The contents of the frames. */
    const pages: array<Page>

    ghost predicate Valid()
      reads this
    {
      frames.Length == pages.Length
    }

    constructor (count: nat)
      ensures Valid() && frames.Length == count && fresh(frames) && fresh(pages)
      ensures forall f :: 0 <= f < count ==> !frames[f]
    {
      frames := new bool[count](_ => false);
      pages := new Page[count](_ => []);
    }

    /** FrameAlloc: the lowest free frame. */
    method FrameAlloc() returns (pfn: Option<nat>)
      modifies frames
      ensures pfn.None? ==> frames[..] == old(frames[..]) && forall f :: 0 <= f < frames.Length ==> frames[f]
      ensures pfn.Some? ==>
        && pfn.value < frames.Length && !old(frames[pfn.value]) && frames[..] == old(frames[..])[pfn.value := true]
        && forall f :: 0 <= f < pfn.value ==> old(frames[f])
    {
      var f := 0;
      while f < frames.Length
        invariant 0 <= f <= frames.Length
        invariant forall g :: 0 <= g < f ==> frames[g]
        invariant frames[..] == old(frames[..])
      {
        if !frames[f] {
          frames[f] := true;
          return Some(f);
        }
        f := f + 1;
      }
      pfn := None;
    }

    /** FrameFree: a frame number out of range is ignored. */
    method FrameFree(pfn: int)
      modifies frames
      ensures frames[..] == if 0 <= pfn < frames.Length then old(frames[..])[pfn := false] else old(frames[..])
    {
      if pfn < 0 || pfn >= frames.Length {
        return;
      }
      frames[pfn] := false;
    }

    /** FrameFree(pt[i].pfn) and MemoryUnmapPage(pt, i) */
    method Release(pt: array<Pte>, i: nat, ghost rest: Slots)
      requires pt.Length > i && pt[i].valid && Owns(frames[..], TableSlots(pt[..]) + rest)
      modifies frames, pt
      ensures pt[..] == old(pt[..])[i := NoPte]
      ensures Lawful(old(frames[..]), TableSlots(old(pt[..])) + rest, frames[..], TableSlots(pt[..]) + rest)
      ensures Balanced(old(frames[..]), old(pt[..]), frames[..], pt[..])
    {
      ghost var slots := TableSlots(pt[..]) + rest;
      assert slots[i] == Some(pt[i].pfn);
      GivingOne(frames[..], pt[i].pfn);
      PagesAfter(pt[..], i, NoPte);
      Drop(frames[..], slots, i);
      SetSlot(pt[..], rest, i, NoPte);
      FrameFree(pt[i].pfn);
      UnmapPage(pt, i);
    }

    /** FrameAlloc and MemoryMapPage of a page that is not mapped. */
    method Obtain(pt: array<Pte>, i: nat, prot: Prot, ghost rest: Slots) returns (ok: bool)
      requires pt.Length > i && !pt[i].valid && Owns(frames[..], TableSlots(pt[..]) + rest)
      modifies frames, pt
      ensures ok ==> pt[..] == old(pt[..])[i := pt[i]] && pt[i].valid && pt[i].prot == prot
      ensures ok ==> pt[i].pfn < frames.Length && !old(frames[..])[pt[i].pfn] && frames[..] == old(frames[..])[pt[i].pfn := true]
      ensures ok ==> forall f :: 0 <= f < pt[i].pfn ==> old(frames[..])[f]
      ensures !ok ==> pt[..] == old(pt[..]) && frames[..] == old(frames[..])
      ensures ok <==> |FreeFrames(old(frames[..]))| > 0
      ensures Lawful(old(frames[..]), TableSlots(old(pt[..])) + rest, frames[..], TableSlots(pt[..]) + rest)
      ensures Balanced(old(frames[..]), old(pt[..]), frames[..], pt[..]) && (ok ==> |FreeFrames(frames[..])| == |FreeFrames(old(frames[..]))| - 1)
    {
      var pfn := FrameAlloc();
      if pfn.None? {
        NothingFree(frames[..]);
        return false;
      }
      ghost var slots := TableSlots(pt[..]) + rest;
      assert slots[i] == None;
      Claim(old(frames[..]), slots, i, pfn.value);
      TakingOne(old(frames[..]), pfn.value);
      PagesAfter(pt[..], i, Pte(true, prot, pfn.value));
      SetSlot(pt[..], rest, i, Pte(true, prot, pfn.value));
      var rc := MapPage(pt, i, pfn.value, prot);
      ok := true;
    }

    /** MemoryFreePageTableFrames */
    method FreePageTableFrames(pt: array<Pte>, ghost rest: Slots)
      requires Owns(frames[..], TableSlots(pt[..]) + rest)
      modifies frames, pt
      ensures forall i :: 0 <= i < pt.Length ==> pt[i] == if old(pt[i].valid) then NoPte else old(pt[i])
      ensures Lawful(old(frames[..]), TableSlots(old(pt[..])) + rest, frames[..], TableSlots(pt[..]) + rest)
      ensures |FreeFrames(frames[..])| == |FreeFrames(old(frames[..]))| + |Pages(old(pt[..]))|
    {
      var i := 0;
      while i < pt.Length
        invariant 0 <= i <= pt.Length
        invariant forall j :: 0 <= j < i ==> pt[j] == if old(pt[j].valid) then NoPte else old(pt[j])
        invariant forall j :: i <= j < pt.Length ==> pt[j] == old(pt[j])
        invariant Lawful(old(frames[..]), TableSlots(old(pt[..])) + rest, frames[..], TableSlots(pt[..]) + rest)
        invariant Balanced(old(frames[..]), old(pt[..]), frames[..], pt[..])
      {
        if pt[i].valid {
          ghost var f1, p1 := frames[..], pt[..];
          Release(pt, i, rest);
          LawfulTrans(old(frames[..]), TableSlots(old(pt[..])) + rest, f1, TableSlots(p1) + rest, frames[..], TableSlots(pt[..]) + rest);
        }
        i := i + 1;
      }
      assert Pages(pt[..]) == {};
    }

    /**
     * The loop of SysBrk that maps the pages from `lo` up to `hi`, and the one that takes them back when memory
     * runs out: then page table and frame table are what they were.
     */
    method GrowPages(pt: array<Pte>, lo: nat, hi: nat, ghost rest: Slots) returns (ok: bool)
      requires hi <= pt.Length && Owns(frames[..], TableSlots(pt[..]) + rest)
      requires forall i :: lo <= i < hi ==> pt[i] == NoPte
      modifies frames, pt
      ensures !ok ==> pt[..] == old(pt[..]) && frames[..] == old(frames[..])
      ensures ok ==> forall i :: 0 <= i < pt.Length ==> if lo <= i < hi then pt[i].valid && pt[i].prot == ReadWrite else pt[i] == old(pt[i])
      ensures ok <==> lo + |FreeFrames(old(frames[..]))| >= hi
      ensures Lawful(old(frames[..]), TableSlots(old(pt[..])) + rest, frames[..], TableSlots(pt[..]) + rest)
    {
      var page := lo;
      while page < hi
        invariant if lo <= hi then lo <= page <= hi else page == lo
        invariant forall i :: 0 <= i < pt.Length ==>
          if lo <= i < page then pt[i].valid && pt[i].prot == ReadWrite else pt[i] == old(pt[i])
        invariant |FreeFrames(frames[..])| == |FreeFrames(old(frames[..]))| - (page - lo)
        invariant Lawful(old(frames[..]), TableSlots(old(pt[..])) + rest, frames[..], TableSlots(pt[..]) + rest)
      {
        ghost var f1, p1 := frames[..], pt[..];
        var got := Obtain(pt, page, ReadWrite, rest);
        if !got {
          Rollback(pt, lo, page, rest);
          LawfulTrans(old(frames[..]), TableSlots(old(pt[..])) + rest, f1, TableSlots(p1) + rest, frames[..], TableSlots(pt[..]) + rest);
          assert pt[..] == old(pt[..]);
          SameSlotsSameFrames(old(frames[..]), frames[..], TableSlots(pt[..]) + rest);
          return false;
        }
        LawfulTrans(old(frames[..]), TableSlots(old(pt[..])) + rest, f1, TableSlots(p1) + rest, frames[..], TableSlots(pt[..]) + rest);
        page := page + 1;
      }
      ok := true;
    }

    method Rollback(pt: array<Pte>, lo: nat, hi: nat, ghost rest: Slots)
      requires lo <= hi <= pt.Length && Owns(frames[..], TableSlots(pt[..]) + rest)
      requires forall i :: lo <= i < hi ==> pt[i].valid
      modifies frames, pt
      ensures forall i :: 0 <= i < pt.Length ==> pt[i] == if lo <= i < hi then NoPte else old(pt[i])
      ensures Lawful(old(frames[..]), TableSlots(old(pt[..])) + rest, frames[..], TableSlots(pt[..]) + rest)
    {
      var page := hi;
      while page > lo
        invariant lo <= page <= hi
        invariant forall i :: 0 <= i < pt.Length ==> pt[i] == if page <= i < hi then NoPte else old(pt[i])
        invariant Lawful(old(frames[..]), TableSlots(old(pt[..])) + rest, frames[..], TableSlots(pt[..]) + rest)
      {
        page := page - 1;
        ghost var f1, p1 := frames[..], pt[..];
        Release(pt, page, rest);
        LawfulTrans(old(frames[..]), TableSlots(old(pt[..])) + rest, f1, TableSlots(p1) + rest, frames[..], TableSlots(pt[..]) + rest);
      }
    }

    /** The loop of SysBrk that gives the pages from `lo` up to `hi` back. */
    method ShrinkPages(pt: array<Pte>, lo: nat, hi: nat, ghost rest: Slots)
      requires hi <= pt.Length && Owns(frames[..], TableSlots(pt[..]) + rest) && Canonical(pt[..])
      modifies frames, pt
      ensures forall i :: 0 <= i < pt.Length ==> pt[i] == if lo <= i < hi then NoPte else old(pt[i])
      ensures Lawful(old(frames[..]), TableSlots(old(pt[..])) + rest, frames[..], TableSlots(pt[..]) + rest)
    {
      var page := lo;
      while page < hi
        invariant if lo <= hi then lo <= page <= hi else page == lo
        invariant forall i :: 0 <= i < pt.Length ==> pt[i] == if lo <= i < page then NoPte else old(pt[i])
        invariant Lawful(old(frames[..]), TableSlots(old(pt[..])) + rest, frames[..], TableSlots(pt[..]) + rest)
      {
        if pt[page].valid {
          ghost var f1, p1 := frames[..], pt[..];
          Release(pt, page, rest);
          LawfulTrans(old(frames[..]), TableSlots(old(pt[..])) + rest, f1, TableSlots(p1) + rest, frames[..], TableSlots(pt[..]) + rest);
        }
        page := page + 1;
      }
    }
  }

  /** MemoryMapPage */
  method MapPage(pt: array<Pte>, index: int, pfn: int, prot: Prot) returns (rc: int)
    modifies pt
    ensures rc == if 0 <= index < pt.Length && pfn >= 0 then SUCCESS else ERROR
    ensures pt[..] == if rc == SUCCESS then old(pt[..])[index := Pte(true, prot, pfn)] else old(pt[..])
  {
    if index < 0 || index >= pt.Length || pfn < 0 {
      return ERROR;
    }
    pt[index] := Pte(true, prot, pfn);
    rc := SUCCESS;
  }

  /** MemoryUnmapPage */
  method UnmapPage(pt: array<Pte>, index: int)
    modifies pt
    ensures pt[..] == if 0 <= index < pt.Length then old(pt[..])[index := NoPte] else old(pt[..])
  {
    if index < 0 || index >= pt.Length {
      return;
    }
    pt[index] := NoPte;
  }
}
