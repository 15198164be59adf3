/**
 * Who owns a physical frame. An owner is a row of slots, each holding a frame or nothing: the pages of a page
 * table, the kernel-stack slots of a process. What the owners of src/memory.c, src/process.c, src/syscalls.c,
 * src/template.c and src/kernelbrk.c do to frames comes down to the steps proved here.
 */
module FrameOwnership {
  import opened Common

  type Slots = seq<Option<nat>>

  function HeldBy(slots: Slots): set<nat> {
    set i | 0 <= i < |slots| && slots[i].Some? :: slots[i].value
  }

  /** The frames frame_allocated marks. */
  function Allocated(frames: seq<bool>): set<nat> {
    set f | 0 <= f < |frames| && frames[f]
  }

  /** The frames FrameAlloc can still give out. */
  function FreeFrames(frames: seq<bool>): set<nat> {
    set f | 0 <= f < |frames| && !frames[f]
  }

  lemma TakingOne(frames: seq<bool>, f: nat)
    requires f < |frames| && !frames[f]
    ensures |FreeFrames(frames[f := true])| == |FreeFrames(frames)| - 1
  {
    assert FreeFrames(frames[f := true]) == FreeFrames(frames) - {f};
  }

  lemma GivingOne(frames: seq<bool>, f: nat)
    requires f < |frames| && frames[f]
    ensures |FreeFrames(frames[f := false])| == |FreeFrames(frames)| + 1
  {
    assert FreeFrames(frames[f := false]) == FreeFrames(frames) + {f};
  }

  lemma NothingFree(frames: seq<bool>)
    requires forall f :: 0 <= f < |frames| ==> frames[f]
    ensures |FreeFrames(frames)| == 0
  {
    assert FreeFrames(frames) == {};
  }

  /** Every held frame is marked allocated, and no two slots hold the same one. */
  ghost predicate Owns(frames: seq<bool>, slots: Slots) {
    && (forall i :: 0 <= i < |slots| && slots[i].Some? ==> slots[i].value < |frames| && frames[slots[i].value])
    && (forall i, j :: 0 <= i < j < |slots| && slots[i].Some? && slots[j].Some? ==> slots[i].value != slots[j].value)
  }

  lemma SlotInRange(frames: seq<bool>, slots: Slots, i: nat)
    requires Owns(frames, slots) && i < |slots| && slots[i].Some?
    ensures slots[i].value < |frames| && frames[slots[i].value]
  {
  }

  /** The allocated frames that are somebody else's. */
  function Outside(frames: seq<bool>, slots: Slots): set<nat> {
    Allocated(frames) - HeldBy(slots)
  }

  /** The owner of `slots` went from one state to another and touched no frame of anybody else's. */
  ghost predicate Lawful(frames: seq<bool>, slots: Slots, frames': seq<bool>, slots': Slots) {
    Owns(frames', slots') && |frames'| == |frames| && Outside(frames', slots') == Outside(frames, slots)
  }

  lemma LawfulRefl(frames: seq<bool>, slots: Slots)
    requires Owns(frames, slots)
    ensures Lawful(frames, slots, frames, slots)
  {
  }

  lemma LawfulTrans(f0: seq<bool>, s0: Slots, f1: seq<bool>, s1: Slots, f2: seq<bool>, s2: Slots)
    requires Lawful(f0, s0, f1, s1) && Lawful(f1, s1, f2, s2)
    ensures Lawful(f0, s0, f2, s2)
  {
  }

  lemma LawfulOwns(f0: seq<bool>, s0: Slots, f1: seq<bool>, s1: Slots)
    requires Lawful(f0, s0, f1, s1)
    ensures Owns(f1, s1) && |f1| == |f0|
  {
  }

  lemma HeldAfter(slots: Slots, i: nat, x: Option<nat>)
    requires i < |slots|
    requires forall j :: 0 <= j < |slots| && j != i && slots[j].Some? && slots[i].Some? ==> slots[j].value != slots[i].value
    ensures HeldBy(slots[i := x]) ==
      HeldBy(slots) - (if slots[i].Some? then {slots[i].value} else {}) + (if x.Some? then {x.value} else {})
  {
    var slots' := slots[i := x];
    forall f | f in HeldBy(slots) && (slots[i].Some? ==> f != slots[i].value) ensures f in HeldBy(slots') {
      var j :| 0 <= j < |slots| && slots[j] == Some(f);
      assert slots'[j] == Some(f);
    }
    if x.Some? {
      assert slots'[i] == x;
    }
    forall f | f in HeldBy(slots') ensures f in HeldBy(slots) || x == Some(f) {
      var j :| 0 <= j < |slots'| && slots'[j] == Some(f);
      assert j != i ==> slots[j] == Some(f);
    }
  }

  /** FrameAlloc and then MemoryMapPage. */
  lemma Claim(frames: seq<bool>, slots: Slots, i: nat, f: nat)
    requires Owns(frames, slots) && i < |slots| && slots[i].None? && f < |frames| && !frames[f]
    ensures Lawful(frames, slots, frames[f := true], slots[i := Some(f)])
    ensures HeldBy(slots[i := Some(f)]) == HeldBy(slots) + {f} && f !in HeldBy(slots)
  {
    HeldAfter(slots, i, Some(f));
    assert Allocated(frames[f := true]) == Allocated(frames) + {f};
  }

  /** FrameFree of a mapped frame and then MemoryUnmapPage. */
  lemma Drop(frames: seq<bool>, slots: Slots, i: nat)
    requires Owns(frames, slots) && i < |slots| && slots[i].Some?
    ensures var f := slots[i].value; Lawful(frames, slots, frames[f := false], slots[i := None])
  {
    var f := slots[i].value;
    HeldAfter(slots, i, None);
    assert Allocated(frames[f := false]) == Allocated(frames) - {f};
  }

  /** The owner gets one more slot, with a frame that was free. */
  lemma ClaimLast(frames: seq<bool>, slots: Slots, f: nat)
    requires Owns(frames, slots) && f < |frames| && !frames[f]
    ensures Lawful(frames, slots, frames[f := true], slots + [Some(f)])
  {
    EmptySlots(frames, slots, [None]);
    Claim(frames, slots + [None], |slots|, f);
    assert (slots + [None])[|slots| := Some(f)] == slots + [Some(f)];
  }

  /** The owner's last slot goes, and its frame is free again. */
  lemma DropLast(frames: seq<bool>, slots: Slots, f: nat)
    requires f < |frames| && Owns(frames, slots + [Some(f)])
    ensures Lawful(frames, slots + [Some(f)], frames[f := false], slots)
  {
    var all := slots + [Some(f)];
    assert all[|slots|] == Some(f);
    Drop(frames, all, |slots|);
    assert all[|slots| := None] == slots + [None];
    EmptySlots(frames[f := false], slots, [None]);
  }

  /** Slots that hold nothing make no difference. */
  lemma EmptySlots(frames: seq<bool>, slots: Slots, empty: Slots)
    requires forall i :: 0 <= i < |empty| ==> empty[i].None?
    ensures HeldBy(slots + empty) == HeldBy(slots) && (Owns(frames, slots + empty) <==> Owns(frames, slots))
  {
    var all := slots + empty;
    assert forall i :: 0 <= i < |slots| ==> all[i] == slots[i];
    assert forall i :: |slots| <= i < |all| ==> all[i] == empty[i - |slots|];
    forall f | f in HeldBy(slots) ensures f in HeldBy(all) {
      var i :| 0 <= i < |slots| && slots[i] == Some(f);
      assert all[i] == Some(f);
    }
  }

  /** MemoryMapPage over a page that is already mapped: the frame that was there is nobody's from then on. */
  lemma Overwrite(frames: seq<bool>, slots: Slots, i: nat, f: nat)
    requires Owns(frames, slots) && i < |slots| && slots[i].Some? && f < |frames| && !frames[f]
    ensures Owns(frames[f := true], slots[i := Some(f)])
    ensures Outside(frames[f := true], slots[i := Some(f)]) == Outside(frames, slots) + {slots[i].value}
    ensures slots[i].value !in Outside(frames, slots)
  {
    HeldAfter(slots, i, Some(f));
    assert Allocated(frames[f := true]) == Allocated(frames) + {f};
    assert slots[i].value in HeldBy(slots);
  }

  /** The frame table is determined by what the owner holds and what is outside. */
  lemma SameSlotsSameFrames(frames: seq<bool>, frames': seq<bool>, slots: Slots)
    requires Owns(frames, slots) && Lawful(frames, slots, frames', slots)
    ensures frames' == frames
  {
    forall f | 0 <= f < |frames| ensures frames[f] == frames'[f] {
      if f in HeldBy(slots) {
        var i :| 0 <= i < |slots| && slots[i] == Some(f);
      } else {
        assert f in Allocated(frames) <==> f in Outside(frames, slots);
        assert f in Allocated(frames') <==> f in Outside(frames', slots);
      }
    }
  }

  /** An owner that holds nothing before and after leaves the frame table as it found it. */
  lemma HoldingNothing(frames: seq<bool>, slots: Slots, frames': seq<bool>, slots': Slots)
    requires Lawful(frames, slots, frames', slots') && HeldBy(slots) == {} && HeldBy(slots') == {}
    ensures frames' == frames
  {
    assert Allocated(frames) == Outside(frames, slots) && Allocated(frames') == Outside(frames', slots');
    forall f | 0 <= f < |frames| ensures frames[f] == frames'[f] {
      assert f in Allocated(frames) <==> frames[f];
      assert f in Allocated(frames') <==> frames'[f];
    }
  }

  // ---------- all owners at once ----------

  /** Every allocated frame is reserved or held by exactly one owner, in exactly one slot. */
  ghost predicate Partition<O(!new)>(frames: seq<bool>, owners: map<O, Slots>, reserved: set<nat>) {
    && (forall o :: o in owners ==> Owns(frames, owners[o]))
    && (forall o, p :: o in owners && p in owners && o != p ==> HeldBy(owners[o]) !! HeldBy(owners[p]))
    && (forall o :: o in owners ==> reserved !! HeldBy(owners[o]))
    && reserved <= Allocated(frames)
    && (forall f :: f in Allocated(frames) && f !in reserved ==> exists o :: o in owners && f in HeldBy(owners[o]))
  }

  lemma SomeOwner<O(!new)>(frames: seq<bool>, owners: map<O, Slots>, reserved: set<nat>, f: nat) returns (o: O)
    requires Partition(frames, owners, reserved) && f in Allocated(frames) && f !in reserved
    ensures o in owners && f in HeldBy(owners[o])
  {
    o :| o in owners && f in HeldBy(owners[o]);
  }

  /** Another owner's frames are outside, and so survive a lawful step. */
  lemma OthersOutside(frames: seq<bool>, slots: Slots, frames': seq<bool>, slots': Slots, other: Slots)
    requires Lawful(frames, slots, frames', slots') && Owns(frames, other) && HeldBy(slots) !! HeldBy(other)
    ensures Owns(frames', other) && HeldBy(slots') !! HeldBy(other)
  {
    forall i | 0 <= i < |other| && other[i].Some? ensures other[i].value < |frames'| && frames'[other[i].value] && other[i].value !in HeldBy(slots') {
      assert other[i].value in HeldBy(other);
      assert other[i].value in Outside(frames, slots);
      assert other[i].value in Outside(frames', slots');
    }
    forall f | f in HeldBy(other) ensures f !in HeldBy(slots') {
      var i :| 0 <= i < |other| && other[i] == Some(f);
    }
  }

  /** What one owner does lawfully keeps the whole partition. */
  lemma LawfulKeepsPartition<O(!new)>(frames: seq<bool>, owners: map<O, Slots>, reserved: set<nat>, o: O,
                                      frames': seq<bool>, slots': Slots)
    requires Partition(frames, owners, reserved) && o in owners && Lawful(frames, owners[o], frames', slots')
    ensures Partition(frames', owners[o := slots'], reserved)
  {
    var owners' := owners[o := slots'];
    forall p | p in owners' && p != o ensures Owns(frames', owners'[p]) && HeldBy(owners'[o]) !! HeldBy(owners'[p]) {
      OthersOutside(frames, owners[o], frames', slots', owners[p]);
    }
    forall f | f in reserved ensures f in Allocated(frames') && f !in HeldBy(slots') {
      assert f in Outside(frames, owners[o]);
      assert f in Outside(frames', slots');
    }
    forall f | f in Allocated(frames') && f !in reserved ensures exists p :: p in owners' && f in HeldBy(owners'[p]) {
      if f in HeldBy(slots') {
        assert f in HeldBy(owners'[o]);
      } else {
        assert f in Outside(frames', slots');
        var p :| p in owners && f in HeldBy(owners[p]);
        assert p != o && f in HeldBy(owners'[p]);
      }
    }
  }

  lemma AllHeld(slots: Slots)
    ensures forall i :: 0 <= i < |slots| && slots[i].Some? ==> slots[i].value in HeldBy(slots)
  {
  }

  /** A new owner that holds nothing yet. */
  lemma NewcomerKeepsPartition<O(!new)>(frames: seq<bool>, owners: map<O, Slots>, reserved: set<nat>, o: O, slots: Slots)
    requires Partition(frames, owners, reserved) && o !in owners && HeldBy(slots) == {}
    ensures Partition(frames, owners[o := slots], reserved) && Owns(frames, slots)
  {
    AllHeld(slots);
    var owners' := owners[o := slots];
    forall f | f in Allocated(frames) && f !in reserved ensures exists p :: p in owners' && f in HeldBy(owners'[p]) {
      var p :| p in owners && f in HeldBy(owners[p]);
      assert f in HeldBy(owners'[p]);
    }
  }

  /** An owner that holds nothing can go. */
  lemma LeaverKeepsPartition<O(!new)>(frames: seq<bool>, owners: map<O, Slots>, reserved: set<nat>, o: O)
    requires Partition(frames, owners, reserved) && o in owners && HeldBy(owners[o]) == {}
    ensures Partition(frames, owners - {o}, reserved)
  {
    var owners' := owners - {o};
    forall f | f in Allocated(frames) && f !in reserved ensures exists p :: p in owners' && f in HeldBy(owners'[p]) {
      var p :| p in owners && f in HeldBy(owners[p]);
      assert f in HeldBy(owners'[p]);
    }
  }
}
