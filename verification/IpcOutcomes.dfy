/**
 * What every call on a lock, a condition variable, a pipe or the table of objects answers, and what it does, in any
 * state some run from boot leads to, told in terms of the state before.
 */
module IpcOutcomes {
  import opened Common
  import opened KernelState
  import opened KernelSteps
  import opened KernelInvariants
  import IpcProofs
  import LifeProofs
  import PipeBuffer
  import TtyProofs
  import opened RunTheorems
  import opened Outcomes

  // ---------- locks ----------

  lemma AcquireIs(s: Kernel, l: int)
    requires Inv(s)
    ensures s.current in s.procs
    ensures if !Obj(s, l).Lock? || s.current == s.idle || Obj(s, l) == Lock(Some(s.current)) then Acquire(s, l) == Answering(s, ERROR)
            else if Obj(s, l) == Lock(None) then
              l >= 0 && Acquire(s, l) == Answering(Holding(s.(objects := s.objects[l := Lock(Some(s.current))]), l), SUCCESS)
            else l >= 0 && ParksAt(s, ObjectQ(l), InAcquire(l), Acquire(s, l))
  {
    hide PlaceInv, LockInv, PipeInv, FamilyInv, TtyInv, BlockOn, ParksAt, Restful;
    RestfulOf(s);
    ReturnIs(s, ERROR);
    if Obj(s, l).Lock? && s.current != s.idle && LockOwner(s, l).Some? {
      BlockIs(s, ObjectQ(l), InAcquire(l));
    }
  }

  /**
   * Acquire fails exactly without such a lock, for the idle process and for the owner; it takes a free lock; and it
   * parks the caller last in the queue of a lock somebody else owns.
   */
  lemma AcquireOutcome(s: Kernel, l: int)
    requires Reached(s) && Legal(s, EvAcquire(l))
    ensures s.current in s.procs
    ensures var s', c := Step(s, EvAcquire(l)), s.current;
      if !Obj(s, l).Lock? || c == s.idle || Obj(s, l) == Lock(Some(c)) then s' == Answering(s, ERROR)
      else if Obj(s, l) == Lock(None) then l >= 0 && s' == Answering(Holding(s.(objects := s.objects[l := Lock(Some(c))]), l), SUCCESS)
      else l >= 0 && ParksAt(s, ObjectQ(l), InAcquire(l), s')
  {
    hide Reached, Inv, PlaceInv, Acquire, ParksAt, Restful;
    ReachedRests(s);
    AcquireIs(s, l);
  }

  /** A waiter that resumes was given the lock before it ran, and is answered SUCCESS. */
  lemma AcquireResumes(s: Kernel, l: nat)
    requires Reached(s) && Cur(s).cont == InAcquire(l)
    ensures s.current in s.procs && Obj(s, l) == Lock(Some(s.current)) && Step(s, EvResume) == Answering(Holding(s, l), SUCCESS)
  {
    hide Reached, Inv, PlaceInv, IpcProofs.Before, LifeProofs.Whole, ResumeAcquire, Step, TtyProofs.WholeTty, Holding,
      Answering, Granted;
    hide LockInv, PipeInv, FamilyInv, TtyInv, Restful;
    ReachedRests(s);
    InvParts(s);
    ResumesAs(s);
    IpcProofs.ResumeAcquireGrants(s, l);
    GrantedIs(s, l);
  }

  lemma GrantedIs(s: Kernel, l: nat)
    requires s.current in s.procs
    ensures Granted(s, l) == Answering(Holding(s, l), SUCCESS)
  {
  }

  /** CvarWait takes the lock again when it resumes, as Acquire would, unless its condition variable is gone. */
  lemma CvarWaitResumes(s: Kernel, v: nat, l: int)
    requires Reached(s) && Cur(s).cont == InCvarWait(v, l)
    ensures s.current in s.procs
    ensures var s', c := Step(s, EvResume), s.current;
      if !Obj(s, v).Cvar? || !Obj(s, l).Lock? || c == s.idle || Obj(s, l) == Lock(Some(c)) then s' == Answering(s, ERROR)
      else if Obj(s, l) == Lock(None) then l >= 0 && s' == Answering(Holding(s.(objects := s.objects[l := Lock(Some(c))]), l), SUCCESS)
      else l >= 0 && ParksAt(s, ObjectQ(l), InAcquire(l), s')
  {
    hide Reached, Inv, PlaceInv, Acquire, ParksAt, Restful;
    ReachedRests(s);
    ReturnIs(s, ERROR);
    AcquireIs(s, l);
  }

  /** The caller has given lock l up: its oldest waiter, if any, owns it and is last in the ready queue. */
  function GivenUp(s: Kernel, l: nat): Kernel
    requires s.current in s.procs && l < |s.objects|
  {
    var waiters, mine := Q(s, ObjectQ(l)), s.procs[s.current].(user := s.procs[s.current].user.(held := s.procs[s.current].user.held - {l}));
    if waiters == [] then s.(procs := s.procs[s.current := mine], objects := s.objects[l := Lock(None)])
    else
      s.(procs := s.procs[s.current := mine][waiters[0] := Roused(Proc(s, waiters[0]))], ready := s.ready + [waiters[0]],
         queues := s.queues[ObjectQ(l) := waiters[1..]], objects := s.objects[l := Lock(Some(waiters[0]))])
  }

  lemma GivenUpIs(s: Kernel, l: nat)
    requires PlaceInv(s) && Obj(s, l) == Lock(Some(s.current))
    ensures s.current in s.procs && LockRelease(s, l) == GivenUp(s, l)
    ensures s.current != s.idle ==> Restful(GivenUp(s, l))
  {
    hide PlaceInv;
    RestfulOf(s);
    var waiters := Q(s, ObjectQ(l));
    if waiters != [] {
      assert waiters[0] in waiters;
      QueuedSleeps(s, ObjectQ(l), waiters[0]);
      assert LockRelease(s, l).objects == GivenUp(s, l).objects;
    }
  }

  /** Only its owner can release a lock; it passes to the oldest waiter or becomes free. */
  lemma ReleaseOutcome(s: Kernel, l: int)
    requires Reached(s) && Legal(s, EvRelease(l))
    ensures s.current in s.procs
    ensures var s' := Step(s, EvRelease(l));
      if Obj(s, l) == Lock(Some(s.current)) then 0 <= l < |s.objects| && s' == Answering(GivenUp(s, l), SUCCESS)
      else s' == Answering(s, ERROR)
  {
    hide Reached, Inv, PlaceInv, LockRelease, GivenUp, Restful;
    ReachedRests(s);
    ReturnIs(s, ERROR);
    if Obj(s, l) == Lock(Some(s.current)) {
      GivenUpIs(s, l);
      StillThere(s, l);
      ReturnIs(GivenUp(s, l), SUCCESS);
    }
  }

  lemma StillThere(s: Kernel, l: nat)
    requires s.current in s.procs && l < |s.objects|
    ensures GivenUp(s, l).current == s.current && s.current in GivenUp(s, l).procs
  {
  }

  lemma HolderNotIdle(s: Kernel, l: nat)
    requires Inv(s) && Obj(s, l) == Lock(Some(s.current))
    ensures s.current != s.idle
  {
    hide PlaceInv, PipeInv, FamilyInv, TtyInv, WaitersRight, HoldersRight, ContsRight;
  }

  /** CvarWait gives the lock up and sleeps at the condition variable; it fails exactly without that, or without the lock. */
  lemma CvarWaitOutcome(s: Kernel, v: int, l: int)
    requires Reached(s) && Legal(s, EvCvarWait(v, l))
    ensures s.current in s.procs
    ensures var s' := Step(s, EvCvarWait(v, l));
      if Obj(s, v).Cvar? && Obj(s, l) == Lock(Some(s.current))
      then 0 <= l < |s.objects| && 0 <= v && ParksAt(GivenUp(s, l), ObjectQ(v), InCvarWait(v, l), s')
      else s' == Answering(s, ERROR)
  {
    hide Reached, Inv, PlaceInv, LockRelease, GivenUp, Restful, ParksAt, BlockOn;
    ReachedRests(s);
    ReturnIs(s, ERROR);
    if Obj(s, v).Cvar? && Obj(s, l) == Lock(Some(s.current)) {
      HolderNotIdle(s, l);
      GivenUpIs(s, l);
      BlockIs(GivenUp(s, l), ObjectQ(v), InCvarWait(v, l));
    }
  }

  // ---------- condition variables ----------

  /** Signal readies the oldest waiter; it fails exactly without such a condition variable. */
  lemma SignalOutcome(s: Kernel, v: int)
    requires Reached(s) && Legal(s, EvSignal(v))
    ensures s.current in s.procs
    ensures var s' := Step(s, EvSignal(v));
      if Obj(s, v).Cvar? then 0 <= v && s.current in OneRoused(s, ObjectQ(v)).procs && s' == Answering(OneRoused(s, ObjectQ(v)), SUCCESS)
      else s' == Answering(s, ERROR)
  {
    hide Reached, Inv, PlaceInv, WakeOne, Restful, Asleep;
    ReachedRests(s);
    ReturnIs(s, ERROR);
    if Obj(s, v).Cvar? {
      AsleepOf(s, ObjectQ(v));
      if Q(s, ObjectQ(v)) != [] {
        HeadAsleep(s, ObjectQ(v));
      }
      RouseIs(s, ObjectQ(v));
      ReturnIs(OneRoused(s, ObjectQ(v)), SUCCESS);
    }
  }

  /** Broadcast readies all waiters, oldest first; it fails exactly without such a condition variable. */
  lemma BroadcastOutcome(s: Kernel, v: int)
    requires Reached(s) && Legal(s, EvBroadcast(v))
    ensures s.current in s.procs
    ensures var s' := Step(s, EvBroadcast(v));
      if Obj(s, v).Cvar? then 0 <= v && exists s1 :: AllRoused(s, ObjectQ(v), s1) && s.current in s1.procs && s' == Answering(s1, SUCCESS)
      else s' == Answering(s, ERROR)
  {
    hide Reached, Inv, PlaceInv, WakeAll, Restful, Asleep, AllRoused;
    ReachedRests(s);
    ReturnIs(s, ERROR);
    if Obj(s, v).Cvar? {
      AsleepOf(s, ObjectQ(v));
      RouseAllIs(s, ObjectQ(v));
      RousedCaller(s, ObjectQ(v), WakeAll(s, ObjectQ(v)));
      ReturnIs(WakeAll(s, ObjectQ(v)), SUCCESS);
    }
  }

  // ---------- pipes ----------

  /** One round of a pipe read: the first bytes there are, as many as asked for, or the end of the queue of readers. */
  ghost predicate ReadsPipe(s: Kernel, id: nat, len: Positive, s': Kernel)
    requires s.current in s.procs && Obj(s, id).Pipe?
  {
    var pipe := Obj(s, id);
    if pipe.buf == [] then ParksAt(s, ObjectQ(id), InPipeRead(id, len), s')
    else
      var n := if |pipe.buf| <= len then |pipe.buf| else len;
      var rest := pipe.(buf := pipe.buf[n..], taken := pipe.taken + pipe.buf[..n]);
      s' == Answering(Filling(s.(objects := s.objects[id := rest]), pipe.buf[..n]), n)
  }

  lemma PipeLoopIs(s: Kernel, id: nat, len: Positive)
    requires Restful(s) && Obj(s, id).Pipe?
    ensures ReadsPipe(s, id, len, PipeReadLoop(s, id, len))
  {
    hide BlockOn, ParksAt;
    BlockIs(s, ObjectQ(id), InPipeRead(id, len));
  }

  /** A pipe read fails exactly for a bad length or buffer, the idle process and without such a pipe. */
  lemma PipeReadOutcome(s: Kernel, id: int, len: int, nullBuf: bool)
    requires Reached(s) && Legal(s, EvPipeRead(id, len, nullBuf))
    ensures s.current in s.procs
    ensures var s' := Step(s, EvPipeRead(id, len, nullBuf));
      if len < 0 || (nullBuf && len > 0) || (len > 0 && (s.current == s.idle || !Obj(s, id).Pipe?)) then s' == Answering(s, ERROR)
      else if len == 0 then s' == Answering(s, 0)
      else id >= 0 && ReadsPipe(s, id, len, s')
  {
    hide Reached, Inv, PlaceInv, Restful, PipeReadLoop, ReadsPipe;
    ReachedRests(s);
    ReturnIs(s, ERROR);
    ReturnIs(s, 0);
    if len > 0 && s.current != s.idle && Obj(s, id).Pipe? {
      PipeLoopIs(s, id, len);
    }
  }

  /** A reader that resumes fails exactly if the pipe is gone, and else tries again. */
  lemma PipeReadResumes(s: Kernel, id: nat, len: Positive)
    requires Reached(s) && Cur(s).cont == InPipeRead(id, len)
    ensures s.current in s.procs
    ensures var s' := Step(s, EvResume);
      if !Obj(s, id).Pipe? then s' == Answering(s, ERROR) else ReadsPipe(s, id, len, s')
  {
    hide Reached, Inv, PlaceInv, Restful, PipeReadLoop, ReadsPipe, Step, TtyProofs.WholeTty;
    ReachedRests(s);
    ResumerNotIdle(s);
    ResumesAs(s);
    ReturnIs(s, ERROR);
    if Obj(s, id).Pipe? {
      PipeLoopIs(s, id, len);
    }
  }

  /** Doubling cap as often as it takes to reach what is needed. */
  ghost predicate Doubled(cap: Positive, needed: nat, c: Positive) {
    exists k: nat :: c == cap * PipeBuffer.Pow2(k) && needed <= c && (k > 0 ==> cap * PipeBuffer.Pow2(k - 1) < needed)
  }

  lemma {:induction false} GrownIsDoubled(cap: Positive, needed: nat)
    ensures Doubled(cap, needed, GrownCap(cap, needed))
    decreases needed - cap
  {
    if cap < needed {
      GrownIsDoubled(2 * cap, needed);
      var k: nat :| GrownCap(2 * cap, needed) == 2 * cap * PipeBuffer.Pow2(k) && needed <= GrownCap(2 * cap, needed)
                    && (k > 0 ==> 2 * cap * PipeBuffer.Pow2(k - 1) < needed);
      OnceMore(cap, k);
      assert GrownCap(cap, needed) == cap * PipeBuffer.Pow2(k + 1);
    } else {
      assert PipeBuffer.Pow2(0) == 1;
      assert cap == cap * PipeBuffer.Pow2(0);
    }
  }

  lemma OnceMore(cap: Positive, k: nat)
    ensures 2 * cap * PipeBuffer.Pow2(k) == cap * PipeBuffer.Pow2(k + 1)
    ensures k > 0 ==> 2 * cap * PipeBuffer.Pow2(k - 1) == cap * PipeBuffer.Pow2(k)
    ensures cap * PipeBuffer.Pow2(0) == cap
  {
    assert PipeBuffer.Pow2(0) == 1;
  }

  /** The pipe's bytes end in the data, its capacity has doubled as often as needed, and all readers that slept are ready. */
  ghost predicate WritesPipe(s: Kernel, id: nat, data: seq<Byte>, s': Kernel)
    requires id < |s.objects| && s.objects[id].Pipe?
  {
    exists cap, s1 ::
      && Doubled(s.objects[id].cap, |s.objects[id].buf| + |data|, cap)
      && AllRoused(Longer(s, id, data, cap), ObjectQ(id), s1)
      && s.current in s1.procs && s' == Answering(s1, |data|)
  }

  function Longer(s: Kernel, id: nat, data: seq<Byte>, cap: Positive): Kernel
    requires id < |s.objects| && s.objects[id].Pipe?
  {
    var pipe := s.objects[id];
    s.(objects := s.objects[id := Pipe(pipe.buf + data, cap, pipe.written + data, pipe.taken)])
  }

  lemma AppendIs(s: Kernel, id: nat, data: seq<Byte>) returns (cap: Positive)
    requires Obj(s, id).Pipe?
    ensures Doubled(s.objects[id].cap, |s.objects[id].buf| + |data|, cap)
    ensures SetObj(s, id, Appended(Obj(s, id), data)) == Longer(s, id, data, cap)
  {
    hide Doubled, GrownCap;
    var pipe := s.objects[id];
    cap := GrownCap(pipe.cap, |pipe.buf| + |data|);
    GrownIsDoubled(pipe.cap, |pipe.buf| + |data|);
    PipeBuffer.FitsStays(pipe.cap, |pipe.buf| + |data|);
  }

  lemma AsleepStill(s: Kernel, id: nat, data: seq<Byte>, cap: Positive)
    requires Obj(s, id).Pipe? && Asleep(s, Q(s, ObjectQ(id)))
    ensures Asleep(Longer(s, id, data, cap), Q(Longer(s, id, data, cap), ObjectQ(id)))
  {
    hide Unique;
  }

  /** A write to a pipe fails exactly if it does not fit and there is no memory to grow, or something is wrong with the call. */
  lemma PipeWriteOutcome(s: Kernel, id: int, mem: Option<seq<Byte>>, len: int, oom: bool)
    requires Reached(s) && Legal(s, EvPipeWrite(id, mem, len, oom))
    ensures s.current in s.procs
    ensures var s' := Step(s, EvPipeWrite(id, mem, len, oom));
      if len < 0 || (mem.None? && len > 0) || (len > 0 && !Obj(s, id).Pipe?) then s' == Answering(s, ERROR)
      else if len == 0 then s' == Answering(s, 0)
      else if |Obj(s, id).buf| + len > Obj(s, id).cap && oom then s' == Answering(s, ERROR)
      else 0 <= id < |s.objects| && WritesPipe(s, id, mem.value[..len], s')
  {
    hide Reached, Inv, PlaceInv, Restful, WakeAll, Appended, AllRoused, Asleep, Doubled;
    ReachedRests(s);
    ReturnIs(s, ERROR);
    ReturnIs(s, 0);
    if len > 0 && mem.Some? && Obj(s, id).Pipe? && !(|Obj(s, id).buf| + len > Obj(s, id).cap && oom) {
      var data := mem.value[..len];
      var cap := AppendIs(s, id, data);
      var s0 := Longer(s, id, data, cap);
      AsleepOf(s, ObjectQ(id));
      AsleepStill(s, id, data, cap);
      RouseAllIs(s0, ObjectQ(id));
      RousedCaller(s0, ObjectQ(id), WakeAll(s0, ObjectQ(id)));
      ReturnIs(WakeAll(s0, ObjectQ(id)), len);
    }
  }

  lemma RousedCaller(s: Kernel, q: QueueId, s': Kernel)
    requires AllRoused(s, q, s') && s.current in s.procs
    ensures s'.current == s.current && s.current in s'.procs
  {
  }

  // ---------- the object table ----------

  /** The object an init call makes. */
  function Made(e: Event): Object
    requires e.EvLockInit? || e.EvCvarInit? || e.EvPipeInit?
  {
    match e
    case EvLockInit(_) => Lock(None)
    case EvCvarInit(_) => Cvar
    case EvPipeInit(_, _) => Pipe([], PIPE_BUFFER_LEN, [], [])
  }

  /**
   * An init call fails exactly for a null pointer, with all slots taken, or, for a pipe, without memory. Else it hands
   * out the first free slot, which holds the new object with nobody queued.
   */
  lemma InitOutcome(s: Kernel, e: Event)
    requires Reached(s) && Legal(s, e) && (e.EvLockInit? || e.EvCvarInit? || e.EvPipeInit?)
    ensures s.current in s.procs
    ensures var s' := Step(s, e);
      if e.nullPtr || (forall i :: 0 <= i < |s.objects| ==> !s.objects[i].Free?) || (e.EvPipeInit? && e.oom) then s' == Answering(s, ERROR)
      else
        s.current in s'.procs &&
        var id := s'.procs[s.current].user.stored;
        && 0 <= id < |s.objects| && s.objects[id].Free? && (forall i :: 0 <= i < id ==> !s.objects[i].Free?)
        && s' == Answering(Storing(s.(objects := s.objects[id := Made(e)], queues := s.queues[ObjectQ(id) := []]), id), SUCCESS)
  {
    hide Reached, Inv, PlaceInv, Restful, FirstFree;
    ReachedRests(s);
    ReturnIs(s, ERROR);
    assert FirstFree(s.objects) < |s.objects| ==> s.objects[FirstFree(s.objects)].Free?;
  }

  /** Reclaim fails exactly for a free slot, a lock somebody owns, and an object somebody waits for; else it frees the slot. */
  lemma ReclaimOutcome(s: Kernel, id: int)
    requires Reached(s) && Legal(s, EvReclaim(id))
    ensures s.current in s.procs
    ensures var s' := Step(s, EvReclaim(id));
      if Obj(s, id).Free? || (Obj(s, id).Lock? && Obj(s, id) != Lock(None)) || Q(s, ObjectQ(id)) != [] then s' == Answering(s, ERROR)
      else 0 <= id < |s.objects| && s' == Answering(s.(objects := s.objects[id := Free]), SUCCESS)
  {
    hide Reached, Inv, PlaceInv, Restful;
    ReachedRests(s);
    ReturnIs(s, ERROR);
  }
}
