/** The page layout LoadProgram of src/template.c gives a process. */
module ProgramImage {
  import opened Common
  import opened FrameOwnership
  import opened PageTables
  import opened AddressSpaces

  /** What LoadProgram takes from the executable's header, in pages of Region 1, and where the stack is to start. */
  datatype LoadInfo = LoadInfo(
    textPage: int, textCount: nat,
    dataPage: int, dataCount: nat,
    heapStart: nat,
    stackBase: int)

  /** Done, refused with the old program intact, or failed with the old program gone. */
  datatype Loading = Loaded | Refused | Kill

  predicate InText(li: LoadInfo, i: int) {
    li.textPage <= i < li.textPage + li.textCount
  }

  predicate InData(li: LoadInfo, i: int) {
    li.dataPage <= i < li.dataPage + li.dataCount
  }

  predicate InStack(li: LoadInfo, i: int) {
    li.stackBase <= i < MAX_PT_LEN
  }

  /**
   * The checks of src/template.c:65-67, on a stack of at least one page, which src/template.c:56-63 always gives.
   * They do not keep the text apart from the data or the stack.
   */
  predicate Fits(li: LoadInfo) {
    && 0 <= li.textPage <= li.dataPage
    && li.textPage + li.textCount <= MAX_PT_LEN
    && li.dataPage + li.dataCount <= li.stackBase - 1
    && li.stackBase < MAX_PT_LEN
  }

  ghost predicate Overlaps(li: LoadInfo) {
    exists i :: InText(li, i) && (InData(li, i) || InStack(li, i))
  }

  /** What a well-formed header guarantees: the segments follow each other, and the data end where the heap starts. */
  predicate WellFormed(li: LoadInfo) {
    && li.textPage + li.textCount <= li.dataPage
    && li.heapStart == PageStart(li.dataPage + li.dataCount)
  }

  /** A well-formed program is refused exactly if it begins below Region 1 or leaves no unmapped page below the stack. */
  lemma RefusedExactly(li: LoadInfo)
    requires WellFormed(li) && li.stackBase < MAX_PT_LEN
    ensures Fits(li) <==> li.textPage >= 0 && UpPage(li.heapStart) < li.stackBase
  {
    PageOfStart(li.dataPage + li.dataCount);
  }

  /** The owner went from one state to another and lost track of the frames `lost`: they stay allocated, and nobody's. */
  ghost predicate Leaking(frames: seq<bool>, slots: Slots, frames': seq<bool>, slots': Slots, lost: set<nat>) {
    && Owns(frames', slots') && |frames'| == |frames|
    && Outside(frames', slots') == Outside(frames, slots) + lost && lost !! Outside(frames, slots)
  }

  lemma LeakNothing(frames: seq<bool>, slots: Slots, frames': seq<bool>, slots': Slots, lost: set<nat>)
    requires Leaking(frames, slots, frames', slots', lost)
    ensures Lawful(frames, slots, frames', slots') <==> lost == {}
  {
    forall f | f in lost ensures f in Outside(frames', slots') && f !in Outside(frames, slots) {
    }
  }

  lemma LeakTrans(f0: seq<bool>, s0: Slots, f1: seq<bool>, s1: Slots, lost1: set<nat>, f2: seq<bool>, s2: Slots, lost2: set<nat>)
    requires Leaking(f0, s0, f1, s1, lost1) && Leaking(f1, s1, f2, s2, lost2)
    ensures Leaking(f0, s0, f2, s2, lost1 + lost2)
  {
  }

  lemma LeakClaim(f0: seq<bool>, s0: Slots, f1: seq<bool>, s1: Slots, lost: set<nat>, i: nat, f: nat)
    requires Leaking(f0, s0, f1, s1, lost) && i < |s1| && f < |f1| && !f1[f]
    ensures Leaking(f0, s0, f1[f := true], s1[i := Some(f)], lost + (if s1[i].Some? then {s1[i].value} else {}))
  {
    if s1[i].Some? {
      Overwrite(f1, s1, i, f);
    } else {
      Claim(f1, s1, i, f);
    }
  }

  /** MapRange: every page of the range gets a new frame; one that was there before is lost. */
  method MapRange(mem: PhysicalMemory, pt: array<Pte>, start: nat, count: nat, prot: Prot, ghost rest: Slots)
    returns (rc: int, ghost lost: set<nat>, ghost n: nat)
    requires start + count <= pt.Length && Owns(mem.frames[..], TableSlots(pt[..]) + rest)
    modifies mem.frames, pt
    ensures rc == SUCCESS || rc == ERROR
    ensures rc == SUCCESS <==> count <= |FreeFrames(old(mem.frames[..]))|
    ensures rc == SUCCESS ==> |FreeFrames(mem.frames[..])| == |FreeFrames(old(mem.frames[..]))| - count
    ensures Leaking(old(mem.frames[..]), TableSlots(old(pt[..])) + rest, mem.frames[..], TableSlots(pt[..]) + rest, lost)
    ensures n == (if rc == SUCCESS then count else |FreeFrames(old(mem.frames[..]))|) && n <= count
    ensures MappedRange(old(pt[..]), pt[..], start, n, prot)
    ensures lost == {} <==> NoneValid(old(pt[..]), start, n)
  {
    hide Leaking, MappedRange, NoneValid, FreeFrames, Owns;
    ghost var f0, p0 := mem.frames[..], pt[..];
    var i := 0;
    lost, n := {}, 0;
    NothingYet(p0, start, f0, TableSlots(p0) + rest, prot);
    while i < count
      invariant 0 <= i <= count && n == i
      invariant Leaking(f0, TableSlots(p0) + rest, mem.frames[..], TableSlots(pt[..]) + rest, lost)
      invariant MappedRange(p0, pt[..], start, n, prot)
      invariant |FreeFrames(mem.frames[..])| == |FreeFrames(f0)| - n
      invariant lost == {} <==> NoneValid(p0, start, n)
    {
      ghost var f1, p1 := mem.frames[..], pt[..];
      var pfn := mem.FrameAlloc();
      if pfn.None? {
        NothingFree(f1);
        return ERROR, lost, n;
      }
      TakingOne(f1, pfn.value);
      SetSlot(p1, rest, start + i, Pte(true, prot, pfn.value));
      LengthsKept(p0, p1, start, n, prot, f0, TableSlots(p0) + rest, f1, TableSlots(p1) + rest, lost);
      LeakClaim(f0, TableSlots(p0) + rest, f1, TableSlots(p1) + rest, lost, start + i, pfn.value);
      NextMapped(p0, p1, start, n, prot, pfn.value);
      lost := lost + (if SlotOf(p1[start + i]).Some? then {SlotOf(p1[start + i]).value} else {});
      var _ := MapPage(pt, start + i, pfn.value, prot);
      i, n := i + 1, n + 1;
    }
    rc := SUCCESS;
  }

  lemma NothingYet(p0: seq<Pte>, start: nat, f0: seq<bool>, s0: Slots, prot: Prot)
    requires Owns(f0, s0)
    ensures Leaking(f0, s0, f0, s0, {}) && MappedRange(p0, p0, start, 0, prot) && NoneValid(p0, start, 0)
  {
  }

  lemma LengthsKept(p0: seq<Pte>, p1: seq<Pte>, start: nat, n: nat, prot: Prot, f0: seq<bool>, s0: Slots, f1: seq<bool>, s1: Slots, lost: set<nat>)
    requires MappedRange(p0, p1, start, n, prot) && Leaking(f0, s0, f1, s1, lost)
    ensures |p1| == |p0| && |f1| == |f0| && Owns(f1, s1)
  {
  }

  lemma NextMapped(p0: seq<Pte>, p1: seq<Pte>, start: nat, n: nat, prot: Prot, pfn: nat)
    requires MappedRange(p0, p1, start, n, prot) && start + n < |p0|
    ensures MappedRange(p0, p1[start + n := Pte(true, prot, pfn)], start, n + 1, prot)
    ensures NoneValid(p0, start, n + 1) <==> NoneValid(p0, start, n) && SlotOf(p1[start + n]).None?
  {
    assert p1[start + n] == p0[start + n];
  }

  /** n pages from start on were mapped, and nothing else changed. */
  ghost predicate MappedRange(before: seq<Pte>, after: seq<Pte>, start: int, n: nat, prot: Prot) {
    |after| == |before| && forall i :: 0 <= i < |before| ==>
      if start <= i < start + n then after[i].valid && after[i].prot == prot else after[i] == before[i]
  }

  ghost predicate NoneValid(table: seq<Pte>, start: int, n: nat) {
    forall i :: start <= i < start + n && 0 <= i < |table| ==> !table[i].valid
  }

  /** The pages of the image that are mapped once the text, the data and the stack are: how many frames it takes. */
  function FramesNeeded(li: LoadInfo): int {
    li.textCount + li.dataCount + (MAX_PT_LEN - li.stackBase)
  }

  /** Every mapped page is one of the image, with the protection it is to have; the others are empty. */
  ghost predicate ImageMapped(table: seq<Pte>, li: LoadInfo) {
    |table| == MAX_PT_LEN && forall i :: 0 <= i < MAX_PT_LEN ==>
      if InText(li, i) then table[i].valid && table[i].prot == ReadExec
      else if InData(li, i) || InStack(li, i) then table[i].valid && table[i].prot == ReadWrite
      else table[i] == NoPte
  }

  // ---------- as far as the frames last ----------

  /** How many of n pages, mapped one after the other, are text, how many are data, and how many are stack. */
  function TextMapped(li: LoadInfo, n: nat): nat {
    if n < li.textCount then n else li.textCount
  }

  function DataMapped(li: LoadInfo, n: nat): nat {
    var left := n - TextMapped(li, n);
    if left < li.dataCount then left else li.dataCount
  }

  function StackMapped(li: LoadInfo, n: nat): nat {
    n - TextMapped(li, n) - DataMapped(li, n)
  }

  predicate MapsText(li: LoadInfo, n: nat, i: int) {
    li.textPage <= i < li.textPage + TextMapped(li, n)
  }

  predicate MapsData(li: LoadInfo, n: nat, i: int) {
    li.dataPage <= i < li.dataPage + DataMapped(li, n)
  }

  predicate MapsStack(li: LoadInfo, n: nat, i: int) {
    li.stackBase <= i < li.stackBase + StackMapped(li, n)
  }

  /** One page is among the first n to be mapped twice: its first frame is lost. */
  ghost predicate MapsTwice(li: LoadInfo, n: nat) {
    exists i :: MapsText(li, n, i) && (MapsData(li, n, i) || MapsStack(li, n, i))
  }

  /** The first n pages of the image are mapped, and nothing else is. */
  ghost predicate FirstMapped(table: seq<Pte>, li: LoadInfo, n: nat) {
    |table| == MAX_PT_LEN && forall i :: 0 <= i < MAX_PT_LEN ==>
      if MapsText(li, n, i) || MapsData(li, n, i) || MapsStack(li, n, i) then table[i].valid && table[i].prot == ReadWrite
      else table[i] == NoPte
  }

  /** How many pages LoadProgram maps when there are `frames` frames for it. */
  function PagesLoaded(li: LoadInfo, frames: nat): (n: nat)
    requires Fits(li)
  {
    if FramesNeeded(li) <= frames then FramesNeeded(li) else frames
  }

  /** With frames for everything the image is mapped entirely, and pages are mapped twice exactly if ranges overlap. */
  lemma WholeImage(li: LoadInfo)
    requires Fits(li)
    ensures var n := FramesNeeded(li);
      && n >= 0 && (MapsTwice(li, n) <==> Overlaps(li))
      && (forall i :: MapsText(li, n, i) <==> InText(li, i)) && (forall i :: MapsData(li, n, i) <==> InData(li, i))
      && (forall i :: MapsStack(li, n, i) <==> InStack(li, i))
  {
    var n := FramesNeeded(li);
    assert StackMapped(li, n) == MAX_PT_LEN - li.stackBase;
    if Overlaps(li) {
      var i :| InText(li, i) && (InData(li, i) || InStack(li, i));
      assert MapsText(li, n, i);
    }
    if MapsTwice(li, n) {
      var i :| MapsText(li, n, i) && (MapsData(li, n, i) || MapsStack(li, n, i));
      assert InText(li, i);
    }
  }

  /** Ranges that are apart are apart as far as they are mapped. */
  lemma NothingTwice(li: LoadInfo, n: nat)
    requires Fits(li) && n <= FramesNeeded(li) && !Overlaps(li)
    ensures !MapsTwice(li, n)
  {
    forall i | MapsText(li, n, i) ensures !MapsData(li, n, i) && !MapsStack(li, n, i) {
      assert InText(li, i);
    }
  }

  /** The three calls of MapRange: text, data and stack, on a page table that maps nothing. */
  method MapSegments(mem: PhysicalMemory, pt: array<Pte>, li: LoadInfo, ghost rest: Slots)
    returns (ok: bool, ghost lost: set<nat>, ghost n: nat)
    requires Fits(li) && pt.Length == MAX_PT_LEN && Owns(mem.frames[..], TableSlots(pt[..]) + rest)
    requires forall i :: 0 <= i < MAX_PT_LEN ==> pt[i] == NoPte
    modifies mem.frames, pt
    ensures n == PagesLoaded(li, |FreeFrames(old(mem.frames[..]))|)
    ensures ok <==> FramesNeeded(li) <= |FreeFrames(old(mem.frames[..]))|
    ensures Leaking(old(mem.frames[..]), TableSlots(old(pt[..])) + rest, mem.frames[..], TableSlots(pt[..]) + rest, lost)
    ensures lost == {} <==> !MapsTwice(li, n)
    ensures FirstMapped(pt[..], li, n)
  {
    hide Leaking, MappedRange, NoneValid, MapsTwice, FirstMapped, TableSlots, Owns, FreeFrames;
    ghost var f1, p1 := mem.frames[..], pt[..];
    n := PagesLoaded(li, |FreeFrames(f1)|);
    var rc, lostT, nT := MapRange(mem, pt, li.textPage, li.textCount, ReadWrite, rest);
    ghost var f2, p2 := mem.frames[..], pt[..];
    EmptyRange(p1, li.textPage, nT);
    assert lostT == {};
    if rc == ERROR {
      NoMore(p2, li);
      MappedSoFar(li, n, p1, p2, p2, p2);
      return false, lostT, n;
    }
    ghost var lostD, nD;
    LeakOwns(f1, TableSlots(p1) + rest, f2, TableSlots(p2) + rest, lostT);
    rc, lostD, nD := MapRange(mem, pt, li.dataPage, li.dataCount, ReadWrite, rest);
    ghost var f3, p3 := mem.frames[..], pt[..];
    LeakTrans(f1, TableSlots(p1) + rest, f2, TableSlots(p2) + rest, lostT, f3, TableSlots(p3) + rest, lostD);
    if rc == ERROR {
      NoMore(p3, li);
      MappedSoFar(li, n, p1, p2, p3, p3);
      return false, lostT + lostD, n;
    }
    ghost var lostS, nS;
    LeakOwns(f1, TableSlots(p1) + rest, f3, TableSlots(p3) + rest, lostT + lostD);
    rc, lostS, nS := MapRange(mem, pt, li.stackBase, MAX_PT_LEN - li.stackBase, ReadWrite, rest);
    LeakTrans(f1, TableSlots(p1) + rest, f3, TableSlots(p3) + rest, lostT + lostD, mem.frames[..], TableSlots(pt[..]) + rest, lostS);
    ok := rc == SUCCESS;
    lost := lostT + lostD + lostS;
    MappedSoFar(li, n, p1, p2, p3, pt[..]);
  }

  /** The page-table part of LoadProgram: the old program's frames go back, then text, data and stack are mapped. */
  method MapImage(mem: PhysicalMemory, pt: array<Pte>, li: LoadInfo, ghost rest: Slots)
    returns (ok: bool, ghost lost: set<nat>, ghost n: nat)
    requires Fits(li) && pt.Length == MAX_PT_LEN && Canonical(pt[..]) && Owns(mem.frames[..], TableSlots(pt[..]) + rest)
    modifies mem.frames, pt
    ensures n == PagesLoaded(li, |FreeFrames(old(mem.frames[..]))| + |Pages(old(pt[..]))|)
    ensures ok <==> FramesNeeded(li) <= |FreeFrames(old(mem.frames[..]))| + |Pages(old(pt[..]))|
    ensures Leaking(old(mem.frames[..]), TableSlots(old(pt[..])) + rest, mem.frames[..], TableSlots(pt[..]) + rest, lost)
    ensures lost == {} <==> !MapsTwice(li, n)
    ensures FirstMapped(pt[..], li, n)
  {
    hide Leaking, MapsTwice, FirstMapped, TableSlots, Lawful, Owns, FreeFrames, Pages, Fits;
    ghost var f0, s0 := mem.frames[..], TableSlots(pt[..]) + rest;
    mem.FreePageTableFrames(pt, rest);
    ghost var f1, s1 := mem.frames[..], TableSlots(pt[..]) + rest;
    LawfulOwns(f0, s0, f1, s1);
    LawfulLeaks(f0, s0, f1, s1);
    ok, lost, n := MapSegments(mem, pt, li, rest);
    LeakTrans(f0, s0, f1, s1, {}, mem.frames[..], TableSlots(pt[..]) + rest, lost);
    assert {} + lost == lost;
  }

  lemma LawfulLeaks(frames: seq<bool>, slots: Slots, frames': seq<bool>, slots': Slots)
    requires Lawful(frames, slots, frames', slots')
    ensures Leaking(frames, slots, frames', slots', {})
  {
  }

  lemma EmptyRange(p: seq<Pte>, start: nat, n: nat)
    requires forall i :: 0 <= i < |p| ==> p[i] == NoPte
    ensures NoneValid(p, start, n)
  {
  }

  lemma NoMore(p: seq<Pte>, li: LoadInfo)
    ensures MappedRange(p, p, li.dataPage, 0, ReadWrite) && NoneValid(p, li.dataPage, 0)
    ensures MappedRange(p, p, li.stackBase, 0, ReadWrite) && NoneValid(p, li.stackBase, 0)
  {
  }

  lemma LeakOwns(f0: seq<bool>, s0: Slots, f1: seq<bool>, s1: Slots, lost: set<nat>)
    requires Leaking(f0, s0, f1, s1, lost)
    ensures Owns(f1, s1)
  {
  }

  /** What the three ranges come to: a page that is hit twice is hit first by the text, for the checks keep data and stack apart. */
  lemma MappedSoFar(li: LoadInfo, n: nat, p1: seq<Pte>, p2: seq<Pte>, p3: seq<Pte>, p4: seq<Pte>)
    requires Fits(li) && n <= FramesNeeded(li) && |p1| == MAX_PT_LEN && (forall i :: 0 <= i < MAX_PT_LEN ==> p1[i] == NoPte)
    requires MappedRange(p1, p2, li.textPage, TextMapped(li, n), ReadWrite)
    requires MappedRange(p2, p3, li.dataPage, DataMapped(li, n), ReadWrite)
    requires MappedRange(p3, p4, li.stackBase, StackMapped(li, n), ReadWrite)
    ensures NoneValid(p2, li.dataPage, DataMapped(li, n)) && NoneValid(p3, li.stackBase, StackMapped(li, n)) <==> !MapsTwice(li, n)
    ensures FirstMapped(p4, li, n)
  {
    forall i | 0 <= i < MAX_PT_LEN
      ensures p2[i].valid <==> MapsText(li, n, i)
      ensures p3[i].valid <==> MapsText(li, n, i) || MapsData(li, n, i)
      ensures if MapsText(li, n, i) || MapsData(li, n, i) || MapsStack(li, n, i) then p4[i].valid && p4[i].prot == ReadWrite else p4[i] == NoPte
    {
      assert p2[i] == p2[i] && p3[i] == p3[i];
    }
    forall i | MapsData(li, n, i) ensures 0 <= i < MAX_PT_LEN && !MapsStack(li, n, i) {
    }
    forall i | MapsStack(li, n, i) ensures 0 <= i < MAX_PT_LEN {
    }
    if !MapsTwice(li, n) {
      forall i | MapsData(li, n, i) || MapsStack(li, n, i) ensures !MapsText(li, n, i) {
      }
    }
  }

  /** The loop that makes the text pages executable once they are read. */
  method ProtectText(pt: array<Pte>, li: LoadInfo)
    requires Fits(li) && pt.Length == MAX_PT_LEN
    requires forall i :: 0 <= i < MAX_PT_LEN && InText(li, i) ==> pt[i].valid
    modifies pt
    ensures forall i :: 0 <= i < MAX_PT_LEN ==> pt[i] == if InText(li, i) then old(pt[i]).(prot := ReadExec) else old(pt[i])
    ensures TableSlots(pt[..]) == TableSlots(old(pt[..]))
  {
    var i := li.textPage;
    while i < li.textPage + li.textCount
      invariant li.textPage <= i <= li.textPage + li.textCount
      invariant forall j :: 0 <= j < MAX_PT_LEN ==> pt[j] == if li.textPage <= j < i then old(pt[j]).(prot := ReadExec) else old(pt[j])
    {
      pt[i] := pt[i].(prot := ReadExec);
      i := i + 1;
    }
  }

  /**
   * The memory part of LoadProgram; `readsOk` says whether the segments could be read from the file. The frame
   * accounts balance exactly if no page was mapped twice.
   */
  method LoadProgram(mem: PhysicalMemory, proc: AddressSpace, li: LoadInfo, readsOk: bool) returns (r: Loading)
    requires Shaped(proc.State()) && Owns(mem.frames[..], SlotsOf(proc.State()))
    modifies mem.frames, proc.table, proc`heapStart, proc`brk, proc`stackLow
    ensures r == Refused <==> !Fits(li)
    ensures r == Refused ==> proc.State() == old(proc.State()) && mem.frames[..] == old(mem.frames[..])
    ensures r == Loaded <==> Fits(li) && readsOk && FramesNeeded(li) <= |FreeFrames(old(mem.frames[..]))| + |Pages(old(proc.table[..]))|
    ensures Shaped(proc.State()) && Owns(mem.frames[..], SlotsOf(proc.State())) && proc.kstack[..] == old(proc.kstack[..])
    ensures Lawful(old(mem.frames[..]), SlotsOf(old(proc.State())), mem.frames[..], SlotsOf(proc.State())) <==>
      (Fits(li) ==> !MapsTwice(li, PagesLoaded(li, |FreeFrames(old(mem.frames[..]))| + |Pages(old(proc.table[..]))|)))
    ensures Fits(li) && FramesNeeded(li) <= |FreeFrames(old(mem.frames[..]))| + |Pages(old(proc.table[..]))| ==>
      (Lawful(old(mem.frames[..]), SlotsOf(old(proc.State())), mem.frames[..], SlotsOf(proc.State())) <==> !Overlaps(li))
    ensures r == Kill ==> FirstMapped(proc.table[..], li, PagesLoaded(li, |FreeFrames(old(mem.frames[..]))| + |Pages(old(proc.table[..]))|))
    ensures r == Loaded ==> ImageMapped(proc.table[..], li)
    ensures r == Loaded ==> proc.brk == proc.heapStart == li.heapStart && proc.stackLow == li.stackBase
    ensures r != Loaded ==> proc.brk == old(proc.brk) && proc.heapStart == old(proc.heapStart) && proc.stackLow == old(proc.stackLow)
  {
    if !Fits(li) {
      LawfulRefl(mem.frames[..], SlotsOf(proc.State()));
      return Refused;
    }
    ghost var f0, s0, rest := mem.frames[..], SlotsOf(proc.State()), StackSlots(proc.kstack[..]);
    ghost var lost, n;
    var ok;
    ok, lost, n := MapImage(mem, proc.table, li, rest);
    LeakNothing(f0, s0, mem.frames[..], SlotsOf(proc.State()), lost);
    LeakOwns(f0, s0, mem.frames[..], SlotsOf(proc.State()), lost);
    FirstCanonical(proc.table[..], li, n);
    WholeImage(li);
    hide Lawful, MapsTwice, Overlaps, Leaking, Owns, FramesNeeded;
    if !ok || !readsOk {
      return Kill;
    }
    ghost var p4 := proc.table[..];
    WholeMapped(p4, li);
    ProtectText(proc.table, li);
    proc.heapStart := li.heapStart;
    proc.brk := proc.heapStart;
    proc.stackLow := li.stackBase;
    r := Loaded;
  }

  lemma FirstCanonical(table: seq<Pte>, li: LoadInfo, n: nat)
    requires FirstMapped(table, li, n)
    ensures Canonical(table)
  {
  }

  lemma WholeMapped(table: seq<Pte>, li: LoadInfo)
    requires Fits(li) && FirstMapped(table, li, FramesNeeded(li))
    ensures |table| == MAX_PT_LEN && forall i :: 0 <= i < MAX_PT_LEN ==>
      if InText(li, i) || InData(li, i) || InStack(li, i) then table[i].valid && table[i].prot == ReadWrite else table[i] == NoPte
  {
    WholeImage(li);
  }

  /** A program with a well-formed header starts with heap below, stack above and an unmapped gap between. */
  lemma LoadedLayout(s: Space, li: LoadInfo)
    requires Shaped(s) && Fits(li) && WellFormed(li) && ImageMapped(s.table, li)
    requires s.brk == s.heapStart == li.heapStart && s.stackLow == li.stackBase
    ensures Layout(s)
  {
    PageOfStart(li.dataPage + li.dataCount);
  }

  /**
   * Wherever the stack starts, there is a header that passes the checks and has one page for text and data: the
   * text's frame is lost when the data are mapped.
   */
  lemma OverlapArises(stackBase: int, heapStart: nat)
    requires 2 <= stackBase < MAX_PT_LEN
    ensures var li := LoadInfo(0, 1, 0, 1, heapStart, stackBase);
      Fits(li) && Overlaps(li) && !MapsTwice(li, 1) && forall n :: 2 <= n <= FramesNeeded(li) ==> MapsTwice(li, n)
  {
    var li := LoadInfo(0, 1, 0, 1, heapStart, stackBase);
    assert InText(li, 0) && InData(li, 0);
    forall n | 2 <= n <= FramesNeeded(li) ensures MapsTwice(li, n) {
      assert MapsText(li, n, 0) && MapsData(li, n, 0);
    }
  }

  /** In a well-formed header nothing overlaps; in one that merely passes the checks, text may overlap data or stack. */
  lemma WellFormedApart(li: LoadInfo)
    requires Fits(li) && WellFormed(li)
    ensures !Overlaps(li)
  {
  }
}
