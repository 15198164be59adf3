/** Every system call on locks, condition variables and pipes keeps the invariant. */
module IpcProofs {
  import opened Common
  import opened KernelState
  import opened KernelSteps
  import opened KernelInvariants
  import opened PlaceProofs
  import ScheduleProofs
  import opened OperationPlaces
  import opened LockProofs

  // ---------- frames ----------

  ghost predicate Aside(s: Kernel, s': Kernel) {
    SameFamily(s, s') && SameTty(s, s')
  }

  lemma AsideTrans(s: Kernel, s': Kernel, s'': Kernel)
    requires Aside(s, s') && Aside(s', s'')
    ensures Aside(s, s'')
  {
    forall p ensures SameTtyPart(Proc(s, p), Proc(s'', p)) {
      assert SameTtyPart(Proc(s, p), Proc(s', p)) && SameTtyPart(Proc(s', p), Proc(s'', p));
    }
    forall p | p in s.procs ensures SameFamilyPart(s.procs[p], s''.procs[p]) {
      assert SameFamilyPart(s.procs[p], s'.procs[p]) && SameFamilyPart(s'.procs[p], s''.procs[p]);
    }
  }

  lemma ScheduleAside(s: Kernel, s': Kernel)
    requires ScheduleFrame(s, s')
    ensures Aside(s, s')
  {
    forall p ensures SameTtyPart(Proc(s, p), Proc(s', p)) && (p in s.procs ==> SameFamilyPart(s.procs[p], s'.procs[p])) {
      if p in s.procs {
        assert SameButSchedule(s.procs[p], s'.procs[p]);
      }
    }
  }

  /** What system calls on IPC objects do to one PCB. */
  predicate AsidePart(a: Pcb, b: Pcb) {
    SameFamilyPart(a, b) && SameTtyPart(a, b)
  }

  lemma CurrentAside(s: Kernel, s': Kernel)
    requires s.current in s.procs && s'.terms == s.terms && s'.init == s.init
    requires s'.procs == s.procs[s.current := Proc(s', s.current)]
    requires AsidePart(Cur(s), Proc(s', s.current))
    requires forall t :: Q(s', ReadQ(t)) == Q(s, ReadQ(t)) && Q(s', WriteQ(t)) == Q(s, WriteQ(t))
    ensures Aside(s, s')
  {
  }

  lemma AwakeAside(s: Kernel, s': Kernel, ws: set<Pid>)
    requires s'.terms == s.terms && s'.init == s.init && s'.procs.Keys == s.procs.Keys
    requires forall p :: p in s.procs ==> s'.procs[p] == if p in ws then Awake(s.procs[p]) else s.procs[p]
    requires forall p :: p in ws && p in s.procs ==> !s.procs[p].state.Zombie? && !TtyCont(s.procs[p].cont)
    requires forall t :: Q(s', ReadQ(t)) == Q(s, ReadQ(t)) && Q(s', WriteQ(t)) == Q(s, WriteQ(t))
    ensures Aside(s, s')
  {
  }

  lemma HandedAside(s: Kernel, l: nat, s': Kernel)
    requires l < |s.objects| && Handed(s, l, s') && Queueing(s, l)
    ensures Aside(s, s')
  {
    var q := Q(s, ObjectQ(l));
    assert q != [] ==> q[0] in q;
  }

  // ---------- steps ----------

  /** What the system calls on IPC objects keep, besides what Went says. */
  ghost predicate IpcKept(s: Kernel, s': Kernel) {
    LockInv(s') && PipeInv(s') && Aside(s, s')
  }

  predicate Blocks(s: Kernel, s': Kernel) {
    Proc(s', s.current).state.Blocked?
  }

  ghost predicate Before(s: Kernel) {
    PlaceInv(s) && LockInv(s) && PipeInv(s)
  }

  lemma ForwardWent(s: Kernel, s': Kernel)
    requires PlaceInv(s) && PlaceBase(s') && Forward(s, s') && Cur(s').state == Cur(s).state
    requires s'.procs.Keys == s.procs.Keys && forall p :: p in s.procs ==> s'.procs[p].delayUntil == s.procs[p].delayUntil
    ensures Went(s, s', false)
  {
    assert PlaceInv(s') by {
      hide PlaceBase;
    }
  }

  lemma StillWent(s: Kernel, s': Kernel)
    requires PlaceInv(s) && Still(s, s')
    ensures Went(s, s', false) && !Blocks(s, s')
  {
    CurrentFree(s);
    assert PlaceBase(s);
    hide PlaceBase;
    StillPlaces(s, s');
  }

  lemma PipesKept(s: Kernel, s': Kernel)
    requires PipeInv(s) && s'.objects == s.objects
    ensures PipeInv(s')
  {
    assert forall i: int :: Obj(s', i) == Obj(s, i);
  }

  lemma CurrentStill(s: Kernel, s': Kernel)
    requires s.current in s.procs && s' == s.(procs := s.procs[s.current := Proc(s', s.current)], objects := s'.objects)
    requires SameParking(Cur(s), Cur(s')) && Cur(s').state == Cur(s).state
    ensures Still(s, s')
  {
    assert forall q :: Q(s', q) == Q(s, q);
  }

  lemma ObjectPipes(s: Kernel, s': Kernel, id: nat, o: Object)
    requires PipeInv(s) && id < |s.objects| && s'.objects == s.objects[id := o]
    requires o.Pipe? ==> o.taken + o.buf == o.written && |o.buf| <= o.cap
    ensures PipeInv(s')
  {
    assert forall i: int :: Obj(s', i) == if i == id then o else Obj(s, i);
  }

  /** The current process is changed where neither queues, locks nor kin look. */
  lemma CurrentKept(s: Kernel, s': Kernel)
    requires Before(s) && !Cur(s).cont.InAcquire? && s' == SetCur(s, Cur(s'))
    requires AsidePart(Cur(s), Cur(s')) && SameParking(Cur(s), Cur(s')) && Cur(s').state == Cur(s).state
    requires Cur(s').user.held == Cur(s).user.held && Cur(s').cont.ToUser?
    ensures Went(s, s', false) && IpcKept(s, s') && !Blocks(s, s')
  {
    hide PlaceInv, LockInv, PipeInv, Went, AsidePart, Still, IsWriter, Parks;
    CurrentFree(s);
    assert forall q :: Q(s', q) == Q(s, q);
    CurrentStill(s, s');
    StillWent(s, s');
    CurrentMovesOn(s, s');
    CurrentAside(s, s');
    PipesKept(s, s');
  }

  lemma ReturnKept(s: Kernel, r: int)
    requires Before(s) && !Cur(s).cont.InAcquire? && !TtyCont(Cur(s).cont)
    ensures Went(s, Return(s, r), false) && IpcKept(s, Return(s, r)) && !Blocks(s, Return(s, r))
  {
    CurrentFree(s);
    hide Before, Went, IpcKept;
    CurrentKept(s, Return(s, r));
  }

  lemma WentScheduled(s: Kernel, s1: Kernel, s2: Kernel, s': Kernel)
    requires Went(s, s1, false) && ScheduleProofs.Scheduled(s2, s') && PlaceInv(s')
    requires s1.ready <= s2.ready && s2.idle == s1.idle && s2.init == s1.init
    requires forall p :: Lost(s1, p) <==> Lost(s', p)
    ensures Went(s, s', true)
  {
    hide PlaceInv, Lost;
    assert forall p :: Lost(s, p) <==> Lost(s1, p);
    assert s.ready <= s2.ready;
    assert s.ready != [] ==> s2.ready[0] == s.ready[0] && s.ready[1..] <= s2.ready[1..];
  }

  lemma BlockWent(s: Kernel, s1: Kernel, q: QueueId, c: Cont)
    requires Went(s, s1, false) && s1.current != s1.idle
    ensures Went(s, BlockOn(s1, q, c), true)
    ensures Blocks(s, BlockOn(s1, q, c)) && ScheduleFrame(Enqueue(s1, q, c), BlockOn(s1, q, c))
    ensures s1.current in s1.procs && Cur(s1).blockQueue.None? && !Cur(s1).state.Zombie? && s1.current == s.current
    ensures !Cur(s1).waitingForChild
  {
    CurrentFree(s1);
    hide PlaceInv, Schedule, ScheduleFrame;
    BlockPlaces(s1, q, c);
    WentScheduled(s, s1, Enqueue(s1, q, c), BlockOn(s1, q, c));
  }

  lemma BlockAside(s: Kernel, s1: Kernel, i: nat, c: Cont, s': Kernel)
    requires Aside(s, s1) && s1.current in s1.procs && !TtyCont(Cur(s1).cont) && !TtyCont(c) && !Cur(s1).state.Zombie?
    requires ScheduleFrame(Enqueue(s1, ObjectQ(i), c), s')
    ensures Aside(s, s')
  {
    var s2 := Enqueue(s1, ObjectQ(i), c);
    assert forall t :: Q(s2, ReadQ(t)) == Q(s1, ReadQ(t)) && Q(s2, WriteQ(t)) == Q(s1, WriteQ(t));
    CurrentAside(s1, s2);
    ScheduleAside(s2, s');
    hide Aside, Enqueue, ScheduleFrame;
    AsideTrans(s1, s2, s');
    AsideTrans(s, s1, s');
  }

  /** The current process blocks on object i, with s1 the state in which it does. */
  lemma BlockKept(s: Kernel, s1: Kernel, i: nat, c: Cont)
    requires Went(s, s1, false) && IpcKept(s, s1) && s1.current != s1.idle
    requires !Cur(s1).cont.InAcquire? && !TtyCont(Cur(s1).cont) && !TtyCont(c) && (c.InAcquire? ==> c.lock == i)
    requires WaitsRight(Enqueue(s1, ObjectQ(i), c), s1.current, i)
    requires c.InCvarWait? ==> LockOwner(s1, c.mutex) != Some(s1.current)
    ensures var s' := BlockOn(s1, ObjectQ(i), c);
            Went(s, s', true) && IpcKept(s, s') && Blocks(s, s')
  {
    hide PlaceInv, LockInv, PipeInv, Aside, Schedule, Went, ScheduleFrame, WaitsRight;
    var s' := BlockOn(s1, ObjectQ(i), c);
    BlockWent(s, s1, ObjectQ(i), c);
    EnqueueLocks(s1, ObjectQ(i), c);
    ScheduleLocks(Enqueue(s1, ObjectQ(i), c), s');
    BlockAside(s, s1, i, c, s');
    assert s'.objects == s1.objects by {
      ScheduleObjects(Enqueue(s1, ObjectQ(i), c), s');
    }
    PipesKept(s1, s');
  }

  lemma ScheduleObjects(s: Kernel, s': Kernel)
    requires ScheduleFrame(s, s')
    ensures s'.objects == s.objects
  {
  }

  // ---------- locks ----------

  lemma HandedPipes(s: Kernel, l: nat, s': Kernel)
    requires PipeInv(s) && l < |s.objects| && Obj(s, l).Lock? && Handed(s, l, s')
    ensures PipeInv(s')
  {
    assert forall i: int :: Obj(s', i) == if i == l then s'.objects[l] else Obj(s, i);
  }

  /** What LockRelease by the current process leaves as it was. */
  ghost predicate LetGo(s: Kernel, l: nat, s': Kernel) {
    && s'.current == s.current && s'.idle == s.idle && LockOwner(s', l) != Some(s.current)
    && Cur(s') == Cur(s).WithHeld(Cur(s).user.held - {l})
    && |s'.objects| == |s.objects|
    && (forall i: int :: i != l ==> Obj(s', i) == Obj(s, i)) && Obj(s', l).Lock?
  }

  lemma LockReleaseKept(s: Kernel, l: nat)
    requires Before(s) && Obj(s, l) == Lock(Some(s.current)) && !Cur(s).cont.InAcquire?
    ensures Went(s, LockRelease(s, l), false) && IpcKept(s, LockRelease(s, l)) && LetGo(s, l, LockRelease(s, l))
  {
    CurrentFree(s);
    assert PlaceBase(s);
    var s' := LockRelease(s, l);
    LockReleaseHands(s, l);
    HandedLocks(s, l, s');
    QueueMembers(s, ObjectQ(l));
    assert Queueing(s, l) by {
      assert QueuesAgree(s) && WaitersRight(s) && s.procs[s.idle].state.Running?;
      hide PlaceBase, Handed, Forward, LockRelease;
      QueueingHolds(s, l);
    }
    hide PlaceInv, PlaceBase, LockInv, PipeInv, LockRelease;
    HandedPipes(s, l, s');
    HandedAside(s, l, s');
    HandedLetGo(s, l, s');
    HandedDelays(s, l, s');
    hide Handed;
    ForwardWent(s, s');
  }

  lemma HandedLetGo(s: Kernel, l: nat, s': Kernel)
    requires l < |s.objects| && Handed(s, l, s') && Queueing(s, l) && LockOwner(s', l) != Some(s.current)
    ensures LetGo(s, l, s')
  {
  }

  lemma HandedDelays(s: Kernel, l: nat, s': Kernel)
    requires l < |s.objects| && Handed(s, l, s')
    ensures s'.procs.Keys == s.procs.Keys
    ensures forall p :: p in s.procs ==> s'.procs[p].delayUntil == s.procs[p].delayUntil
  {
  }

  lemma ReleaseKept(s: Kernel, l: int)
    requires Before(s) && Cur(s).cont.ToUser?
    ensures var s' := Release(s, l); Went(s, s', false) && IpcKept(s, s') && !Blocks(s, s')
  {
    hide Before, Went, IpcKept, LockRelease;
    if LockOwner(s, l) != Some(s.current) {
      ReturnKept(s, ERROR);
    } else {
      LockReleaseKept(s, l);
      ThenReturn(s, LockRelease(s, l), SUCCESS);
    }
  }

  /** A step that reached s1 without scheduling, and returns to its caller. */
  lemma ThenReturn(s: Kernel, s1: Kernel, r: int)
    requires Went(s, s1, false) && IpcKept(s, s1) && !Cur(s1).cont.InAcquire? && !TtyCont(Cur(s1).cont)
    ensures var s' := Return(s1, r); Went(s, s', false) && IpcKept(s, s') && !Blocks(s, s')
  {
    hide PlaceInv, LockInv, PipeInv, Aside, Lost;
    ReturnKept(s1, r);
    AsideTrans(s, s1, Return(s1, r));
  }

  lemma GrantKept(s: Kernel, l: nat)
    requires Before(s) && !TtyCont(Cur(s).cont) && s.current != s.idle
    requires Obj(s, l) == Lock(None) || (Obj(s, l) == Lock(Some(s.current)) && Cur(s).cont == InAcquire(l))
    requires Cur(s).cont.InAcquire? ==> Obj(s, l) == Lock(Some(s.current)) && Cur(s).cont == InAcquire(l)
    ensures var s' := Granted(SetObj(s, l, Lock(Some(s.current))), l);
            Went(s, s', false) && IpcKept(s, s') && !Blocks(s, s')
  {
    hide PlaceInv, LockInv, PipeInv, Went, Still, Aside, IsWriter, Parks;
    CurrentFree(s);
    var s' := Granted(SetObj(s, l, Lock(Some(s.current))), l);
    GrantLocks(s, l);
    CurrentStill(s, s');
    StillWent(s, s');
    assert forall q :: Q(s', q) == Q(s, q);
    CurrentAside(s, s');
    ObjectPipes(s, s', l, Lock(Some(s.current)));
  }

  lemma AcquireLoopKept(s: Kernel, s1: Kernel, l: nat)
    requires Went(s, s1, false) && IpcKept(s, s1) && s1.current != s1.idle
    requires Obj(s1, l).Lock? && LockOwner(s1, l) != Some(s1.current)
    requires !Cur(s1).cont.InAcquire? && !TtyCont(Cur(s1).cont)
    ensures var s' := AcquireLoop(s1, l); Went(s, s', Blocks(s, s')) && IpcKept(s, s')
  {
    hide PlaceInv, LockInv, PipeInv, Lost, Aside, BlockOn, Granted;
    if LockOwner(s1, l).None? {
      GrantKept(s1, l);
      AsideTrans(s, s1, AcquireLoop(s1, l));
    } else {
      BlockKept(s, s1, l, InAcquire(l));
    }
  }

  lemma AsideRefl(s: Kernel)
    requires Before(s)
    ensures Went(s, s, false) && IpcKept(s, s)
  {
  }

  lemma AcquireKept(s: Kernel, l: int)
    requires Before(s) && !Cur(s).cont.InAcquire? && !TtyCont(Cur(s).cont)
    ensures var s' := Acquire(s, l); Went(s, s', Blocks(s, s')) && IpcKept(s, s')
  {
    AsideRefl(s);
    hide PlaceInv, LockInv, PipeInv, Went, IpcKept, AcquireLoop;
    ReturnKept(s, ERROR);
    if Obj(s, l).Lock? && s.current != s.idle && LockOwner(s, l) != Some(s.current) {
      AcquireLoopKept(s, s, l);
    }
  }

  /** A waiter that resumes owns the lock: the loop of LockAcquire does not go round again. */
  lemma ResumeAcquireGrants(s: Kernel, l: nat)
    requires Before(s) && Cur(s).cont == InAcquire(l)
    ensures Obj(s, l) == Lock(Some(s.current)) && ResumeAcquire(s, l) == Granted(s, l) && s.current != s.idle
  {
    CurrentFree(s);
  }

  lemma ResumeAcquireKept(s: Kernel, l: nat)
    requires Before(s) && Cur(s).cont == InAcquire(l)
    ensures var s' := ResumeAcquire(s, l); Went(s, s', Blocks(s, s')) && IpcKept(s, s')
  {
    ResumeAcquireGrants(s, l);
    hide Before, Went, IpcKept, ResumeAcquire;
    GrantKept(s, l);
    assert s.objects[l := Lock(Some(s.current))] == s.objects;
    assert SetObj(s, l, Lock(Some(s.current))) == s;
  }

  // ---------- condition variables ----------

  lemma CvarWaitBlocks(s: Kernel, s1: Kernel, c: nat, l: nat)
    requires Went(s, s1, false) && IpcKept(s, s1) && LetGo(s, l, s1)
    requires Obj(s, c).Cvar? && Cur(s).cont.ToUser? && s.current != s.idle && c != l
    ensures var s' := BlockOn(s1, ObjectQ(c), InCvarWait(c, l)); Went(s, s', true) && IpcKept(s, s') && Blocks(s, s')
  {
    assert WaitsRight(Enqueue(s1, ObjectQ(c), InCvarWait(c, l)), s1.current, c);
    hide Went, IpcKept, BlockOn, WaitsRight, Enqueue;
    BlockKept(s, s1, c, InCvarWait(c, l));
  }

  lemma OwnerNotIdle(s: Kernel, l: nat)
    requires LockInv(s) && Obj(s, l) == Lock(Some(s.current))
    ensures s.current != s.idle
  {
  }

  lemma CvarWaitKept(s: Kernel, c: int, l: int)
    requires Before(s) && Cur(s).cont.ToUser?
    ensures var s' := CvarWait(s, c, l); Went(s, s', Blocks(s, s')) && IpcKept(s, s')
  {
    if !Obj(s, c).Cvar? || LockOwner(s, l) != Some(s.current) {
      hide Before, Went, IpcKept;
      ReturnKept(s, ERROR);
    } else {
      hide PlaceInv, LockInv, PipeInv, Went, IpcKept, LockRelease, BlockOn, LetGo;
      OwnerNotIdle(s, l);
      LockReleaseKept(s, l);
      CvarWaitBlocks(s, LockRelease(s, l), c, l);
    }
  }

  lemma ResumeCvarWaitKept(s: Kernel, c: nat, l: int)
    requires Before(s) && Cur(s).cont == InCvarWait(c, l)
    ensures var s' := ResumeCvarWait(s, c, l); Went(s, s', Blocks(s, s')) && IpcKept(s, s')
  {
    hide Before, Went, IpcKept, Acquire;
    if !Obj(s, c).Cvar? {
      ReturnKept(s, ERROR);
    } else {
      AcquireKept(s, l);
    }
  }

  /** The processes queued on an object that is no lock. */
  lemma NoLockWaiters(s: Kernel, i: nat)
    requires Before(s) && !Obj(s, i).Lock?
    ensures forall p :: p in Q(s, ObjectQ(i)) ==>
              p in s.procs && p != s.current && s.procs[p].state.Blocked?
              && !s.procs[p].cont.InAcquire? && !TtyCont(s.procs[p].cont)
  {
    QueueMembers(s, ObjectQ(i));
  }

  /** s' is s with the processes ws, which wait for no lock and no terminal, made ready. */
  ghost predicate Awoken(s: Kernel, s': Kernel, ws: seq<Pid>) {
    && s' == s.(procs := s'.procs, queues := s'.queues, ready := s.ready + ws)
    && s'.procs.Keys == s.procs.Keys
    && (forall p :: p in s.procs ==> s'.procs[p] == if p in ws then Awake(s.procs[p]) else s.procs[p])
    && (forall p :: p in ws ==> p in s.procs && p != s.current && s.procs[p].state.Blocked?
                                && !s.procs[p].cont.InAcquire? && !TtyCont(s.procs[p].cont))
    && (forall t :: Q(s', ReadQ(t)) == Q(s, ReadQ(t)) && Q(s', WriteQ(t)) == Q(s, WriteQ(t)))
  }

  lemma AwokenStates(s: Kernel, s': Kernel, ws: seq<Pid>)
    requires Awoken(s, s', ws) && s.current in s.procs
    ensures forall p :: p in s.procs ==> s'.procs[p].delayUntil == s.procs[p].delayUntil
    ensures forall p :: p in s.procs && p !in ws ==> s'.procs[p].state == s.procs[p].state
    ensures Cur(s') == Cur(s)
  {
  }

  lemma AwokenIpc(s: Kernel, s': Kernel, ws: seq<Pid>)
    requires LockInv(s) && PipeInv(s) && Awoken(s, s', ws)
    ensures IpcKept(s, s')
  {
    hide LockInv, PipeInv, Aside, Awake;
    var wset := set p | p in ws;
    AwakeLocks(s, s', wset);
    AwakeAside(s, s', wset);
    PipesKept(s, s');
  }

  lemma AwokenKept(s: Kernel, s': Kernel, ws: seq<Pid>)
    requires Before(s) && PlaceBase(s') && Awoken(s, s', ws)
    ensures Went(s, s', false) && IpcKept(s, s') && Cur(s') == Cur(s)
  {
    CurrentFree(s);
    PlaceBaseOf(s);
    hide PlaceInv, PlaceBase, LockInv, PipeInv, Went, IpcKept, Forward;
    AwokenIpc(s, s', ws);
    AwokenStates(s, s', ws);
    WokenForward(s, s', ws);
    hide Awoken;
    ForwardWent(s, s');
  }

  lemma PlaceBaseOf(s: Kernel)
    requires PlaceInv(s)
    ensures PlaceBase(s)
  {
  }

  lemma WokeAllAwoken(s: Kernel, i: nat, s': Kernel)
    requires Before(s) && !Obj(s, i).Lock? && WokeAll(s, ObjectQ(i), s')
    ensures Awoken(s, s', Q(s, ObjectQ(i)))
  {
    hide Before, Awake;
    NoLockWaiters(s, i);
  }

  lemma WakeAllKept(s: Kernel, i: nat)
    requires Before(s) && !Obj(s, i).Lock?
    ensures var s' := WakeAll(s, ObjectQ(i));
            Went(s, s', false) && IpcKept(s, s') && Cur(s') == Cur(s) && s'.objects == s.objects
  {
    CurrentFree(s);
    PlaceBaseOf(s);
    hide Before, PlaceInv, PlaceBase, Went, IpcKept, WakeAll, Awoken;
    var s' := WakeAll(s, ObjectQ(i));
    WakeAllPlaces(s, ObjectQ(i));
    WokeAllAwoken(s, i, s');
    AwokenKept(s, s', Q(s, ObjectQ(i)));
  }

  lemma WokeOneAwoken(s: Kernel, i: nat, s': Kernel)
    requires Before(s) && !Obj(s, i).Lock? && Q(s, ObjectQ(i)) != []
    requires var p := Q(s, ObjectQ(i))[0];
      && p in s.procs
      && s' == s.(procs := s.procs[p := Awake(s.procs[p])],
                  queues := s.queues[ObjectQ(i) := Q(s, ObjectQ(i))[1..]], ready := s.ready + [p])
    ensures Awoken(s, s', [Q(s, ObjectQ(i))[0]])
  {
    hide Before, Awake;
    NoLockWaiters(s, i);
    assert Q(s, ObjectQ(i))[0] in Q(s, ObjectQ(i));
  }

  lemma SignalledKept(s: Kernel, c: nat)
    requires Before(s) && !Obj(s, c).Lock?
    ensures var s' := WakeOne(s, ObjectQ(c));
            Went(s, s', false) && IpcKept(s, s') && Cur(s') == Cur(s)
  {
    AsideRefl(s);
    CurrentFree(s);
    PlaceBaseOf(s);
    hide Before, PlaceInv, PlaceBase, Went, IpcKept, WakeOne, Awoken;
    WakeOnePlaces(s, ObjectQ(c));
    if Q(s, ObjectQ(c)) != [] {
      var s' := WakeOne(s, ObjectQ(c));
      WokeOneAwoken(s, c, s');
      AwokenKept(s, s', [Q(s, ObjectQ(c))[0]]);
    } else {
      NobodyWoken(s, ObjectQ(c));
    }
  }

  lemma SignalKept(s: Kernel, c: int)
    requires Before(s) && Cur(s).cont.ToUser?
    ensures var s' := Signal(s, c); Went(s, s', Blocks(s, s')) && IpcKept(s, s')
  {
    hide Before, Went, IpcKept, WakeOne;
    if !Obj(s, c).Cvar? {
      ReturnKept(s, ERROR);
    } else {
      SignalledKept(s, c);
      ThenReturn(s, WakeOne(s, ObjectQ(c)), SUCCESS);
    }
  }

  lemma BroadcastKept(s: Kernel, c: int)
    requires Before(s) && Cur(s).cont.ToUser?
    ensures var s' := Broadcast(s, c); Went(s, s', Blocks(s, s')) && IpcKept(s, s')
  {
    hide Before, Went, IpcKept, WakeAll;
    if !Obj(s, c).Cvar? {
      ReturnKept(s, ERROR);
    } else {
      WakeAllKept(s, c);
      ThenReturn(s, WakeAll(s, ObjectQ(c)), SUCCESS);
    }
  }

  // ---------- pipes ----------

  /** Pipe id becomes pipe, which has no bytes while readers are queued. */
  lemma PipeSetLocks(s: Kernel, id: nat, pipe: Object)
    requires LockInv(s) && Obj(s, id).Pipe? && pipe.Pipe?
    requires pipe.buf != [] ==> forall p :: p in s.procs ==> s.procs[p].blockQueue != Some(ObjectQ(id))
    ensures LockInv(SetObj(s, id, pipe))
  {
    assert forall i: int :: Obj(SetObj(s, id, pipe), i) == if i == id then pipe else Obj(s, i);
  }

  lemma NoReadersYet(s: Kernel, id: nat)
    requires LockInv(s) && Obj(s, id).Pipe? && Obj(s, id).buf != []
    ensures forall p :: p in s.procs ==> s.procs[p].blockQueue != Some(ObjectQ(id))
  {
  }

  lemma PipeSetKept(s: Kernel, id: nat, pipe: Object)
    requires Before(s) && Obj(s, id).Pipe? && pipe.Pipe? && pipe.taken + pipe.buf == pipe.written && |pipe.buf| <= pipe.cap
    requires pipe.buf != [] ==> forall p :: p in s.procs ==> s.procs[p].blockQueue != Some(ObjectQ(id))
    ensures Went(s, SetObj(s, id, pipe), false) && IpcKept(s, SetObj(s, id, pipe))
  {
    hide PlaceInv, LockInv, PipeInv, Went, Aside, Still, IsWriter, Parks;
    CurrentFree(s);
    var s' := SetObj(s, id, pipe);
    PipeSetLocks(s, id, pipe);
    CurrentStill(s, s');
    StillWent(s, s');
    assert forall q :: Q(s', q) == Q(s, q);
    CurrentAside(s, s');
    ObjectPipes(s, s', id, pipe);
  }

  lemma TakeKept(s: Kernel, id: nat, n: nat)
    requires Before(s) && Obj(s, id).Pipe? && 0 < n <= |Obj(s, id).buf|
    ensures var pipe := Obj(s, id);
            var s' := SetObj(s, id, pipe.(buf := pipe.buf[n..], taken := pipe.taken + pipe.buf[..n]));
            Went(s, s', false) && IpcKept(s, s')
  {
    var pipe := Obj(s, id);
    NoReadersYet(s, id);
    assert pipe.taken + pipe.buf == pipe.written && |pipe.buf| <= pipe.cap;
    hide Before, Went, IpcKept;
    assert pipe.buf == pipe.buf[..n] + pipe.buf[n..];
    PipeSetKept(s, id, pipe.(buf := pipe.buf[n..], taken := pipe.taken + pipe.buf[..n]));
  }

  lemma PipeReadLoopKept(s: Kernel, id: nat, len: Positive)
    requires Before(s) && Obj(s, id).Pipe? && s.current != s.idle
    requires !Cur(s).cont.InAcquire? && !TtyCont(Cur(s).cont)
    ensures var s' := PipeReadLoop(s, id, len); Went(s, s', Blocks(s, s')) && IpcKept(s, s')
  {
    hide PlaceInv, LockInv, PipeInv, Went, Aside, BlockOn;
    AsideRefl(s);
    var pipe := Obj(s, id);
    if pipe.buf == [] {
      assert WaitsRight(Enqueue(s, ObjectQ(id), InPipeRead(id, len)), s.current, id);
      BlockKept(s, s, id, InPipeRead(id, len));
    } else {
      var n := Min(|pipe.buf|, len);
      var s1 := SetObj(s, id, pipe.(buf := pipe.buf[n..], taken := pipe.taken + pipe.buf[..n]));
      TakeKept(s, id, n);
      ThenFinish(s, s1, Cur(s1).(user := Cur(s1).user.(got := pipe.buf[..n])), n);
    }
  }

  lemma ThenFinish(s: Kernel, s1: Kernel, pcb: Pcb, r: int)
    requires Went(s, s1, false) && IpcKept(s, s1) && !Cur(s1).cont.InAcquire? && !TtyCont(Cur(s1).cont)
    requires pcb == Cur(s1).(user := pcb.user) && pcb.user.held == Cur(s1).user.held
    ensures var s' := Finish(s1, pcb, r); Went(s, s', false) && IpcKept(s, s') && !Blocks(s, s')
  {
    CurrentFree(s1);
    hide PlaceInv, LockInv, PipeInv, Aside, Lost;
    CurrentKept(s1, Finish(s1, pcb, r));
    AsideTrans(s, s1, Finish(s1, pcb, r));
  }

  lemma PipeReadKept(s: Kernel, id: int, len: int, nullBuf: bool)
    requires Before(s) && Cur(s).cont.ToUser?
    ensures var s' := PipeRead(s, id, len, nullBuf); Went(s, s', Blocks(s, s')) && IpcKept(s, s')
  {
    hide Before, Went, IpcKept, PipeReadLoop;
    ReturnKept(s, ERROR);
    ReturnKept(s, 0);
    if len > 0 && s.current != s.idle && Obj(s, id).Pipe? {
      PipeReadLoopKept(s, id, len);
    }
  }

  lemma ResumingIsNotIdle(s: Kernel)
    requires Before(s) && !Cur(s).cont.ToUser?
    ensures s.current != s.idle
  {
    CurrentFree(s);
  }

  lemma ResumePipeReadKept(s: Kernel, id: nat, len: Positive)
    requires Before(s) && Cur(s).cont == InPipeRead(id, len)
    ensures var s' := ResumePipeRead(s, id, len); Went(s, s', Blocks(s, s')) && IpcKept(s, s')
  {
    ResumingIsNotIdle(s);
    hide Before, Went, IpcKept, PipeReadLoop;
    ReturnKept(s, ERROR);
    if Obj(s, id).Pipe? {
      PipeReadLoopKept(s, id, len);
    }
  }

  lemma {:induction false} WakeAllCommutes(s: Kernel, q: QueueId, objects: seq<Object>)
    ensures WakeAll(s.(objects := objects), q) == WakeAll(s, q).(objects := objects)
    decreases |Q(s, q)|
  {
    if Q(s, q) != [] {
      assert WakeOne(s.(objects := objects), q) == WakeOne(s, q).(objects := objects);
      WakeAllCommutes(WakeOne(s, q), q, objects);
    }
  }

  lemma NobodyQueued(s: Kernel, q: QueueId)
    requires PlaceInv(s) && Q(s, q) == []
    ensures forall p :: p in s.procs ==> s.procs[p].blockQueue != Some(q)
  {
  }

  lemma NoneLeft(s: Kernel, q: QueueId)
    requires PlaceInv(s)
    ensures Q(WakeAll(s, q), q) == []
  {
    CurrentFree(s);
    WakeAllPlaces(s, q);
  }

  lemma PutKept(s: Kernel, id: nat, pipe: Object)
    requires Before(s) && Obj(s, id).Pipe? && pipe.Pipe? && pipe.taken + pipe.buf == pipe.written && |pipe.buf| <= pipe.cap
    ensures var s' := WakeAll(SetObj(s, id, pipe), ObjectQ(id));
            Went(s, s', false) && IpcKept(s, s') && Cur(s') == Cur(s)
  {
    var s1 := WakeAll(s, ObjectQ(id));
    WakeAllCommutes(s, ObjectQ(id), s.objects[id := pipe]);
    WakeAllKept(s, id);
    NoneLeft(s, ObjectQ(id));
    hide PlaceInv, LockInv, PipeInv, WakeAll, Aside, Lost;
    NobodyQueued(s1, ObjectQ(id));
    PipeSetKept(s1, id, pipe);
    AsideTrans(s, s1, SetObj(s1, id, pipe));
    WentTrans(s, s1, SetObj(s1, id, pipe));
  }

  lemma WentTrans(s: Kernel, s1: Kernel, s2: Kernel)
    requires Went(s, s1, false) && Went(s1, s2, false)
    ensures Went(s, s2, false)
  {
    hide PlaceInv, Lost;
  }

  lemma AppendedIsFit(pipe: Object, data: seq<Byte>)
    requires pipe.Pipe? && pipe.taken + pipe.buf == pipe.written
    ensures var p := Appended(pipe, data); p.taken + p.buf == p.written && |p.buf| <= p.cap
  {
    assert pipe.taken + (pipe.buf + data) == (pipe.taken + pipe.buf) + data;
  }

  lemma PipePutKept(s: Kernel, id: nat, data: seq<Byte>, r: int)
    requires Before(s) && Cur(s).cont.ToUser? && Obj(s, id).Pipe?
    ensures var s' := Return(WakeAll(SetObj(s, id, Appended(Obj(s, id), data)), ObjectQ(id)), r);
            Went(s, s', false) && IpcKept(s, s') && !Blocks(s, s')
  {
    assert Obj(s, id).taken + Obj(s, id).buf == Obj(s, id).written;
    hide Before, Went, IpcKept, WakeAll, Appended;
    AppendedIsFit(Obj(s, id), data);
    AppendedIsPipe(Obj(s, id), data);
    PutKept(s, id, Appended(Obj(s, id), data));
    ThenReturn(s, WakeAll(SetObj(s, id, Appended(Obj(s, id), data)), ObjectQ(id)), r);
  }

  lemma AppendedIsPipe(pipe: Object, data: seq<Byte>)
    requires pipe.Pipe?
    ensures Appended(pipe, data).Pipe?
  {
  }

  lemma PipeWriteKept(s: Kernel, id: int, mem: Option<seq<Byte>>, len: int, oom: bool)
    requires Before(s) && Cur(s).cont.ToUser?
    requires mem.Some? && len > 0 ==> len <= |mem.value|
    ensures var s' := PipeWrite(s, id, mem, len, oom); Went(s, s', Blocks(s, s')) && IpcKept(s, s')
  {
    hide Before, Went, IpcKept, WakeAll, Blocks;
    ReturnKept(s, ERROR);
    ReturnKept(s, 0);
    if len > 0 && mem.Some? && Obj(s, id).Pipe? {
      PipePutKept(s, id, mem.value[..len], len);
    }
  }

  // ---------- the object table ----------

  lemma FreeSlotLocks(s: Kernel, id: nat, o: Object)
    requires LockInv(s) && id < |s.objects| && (o == Lock(None) || o.Cvar? || o.Pipe? || o.Free?)
    requires Obj(s, id) == Lock(None) || !Obj(s, id).Lock?
    requires forall p :: p in s.procs ==> s.procs[p].blockQueue != Some(ObjectQ(id))
    ensures LockInv(SetObj(s, id, o))
  {
    assert forall i: int :: Obj(SetObj(s, id, o), i) == if i == id then o else Obj(s, i);
  }

  /** An object nobody owns or waits for is replaced by another such object. */
  lemma SlotKept(s: Kernel, id: nat, o: Object, queues: map<QueueId, seq<Pid>>)
    requires Before(s) && id < |s.objects| && (o == Lock(None) || o.Cvar? || (o.Pipe? && o.buf == o.taken == o.written == []) || o.Free?)
    requires Obj(s, id) == Lock(None) || !Obj(s, id).Lock?
    requires Q(s, ObjectQ(id)) == [] && forall q :: Q(s.(queues := queues), q) == Q(s, q)
    ensures var s' := SetObj(s, id, o).(queues := queues); Went(s, s', false) && IpcKept(s, s') && Cur(s') == Cur(s)
  {
    hide PlaceInv, LockInv, PipeInv, Went, Aside, Still, IsWriter, Parks, SameLocks;
    CurrentFree(s);
    NobodyQueued(s, ObjectQ(id));
    var s' := SetObj(s, id, o).(queues := queues);
    FreeSlotLocks(s, id, o);
    SameButQueues(SetObj(s, id, o), s');
    LocksKept(SetObj(s, id, o), s');
    assert Still(s, s') by {
      StillQueues(s, s');
    }
    StillWent(s, s');
    CurrentAside(s, s');
    ObjectPipes(s, s', id, o);
  }

  lemma SameButQueues(s: Kernel, s': Kernel)
    requires s' == s.(queues := s'.queues)
    ensures SameLocks(s, s')
  {
  }

  lemma StillQueues(s: Kernel, s': Kernel)
    requires s' == s.(objects := s'.objects, queues := s'.queues) && forall q :: Q(s', q) == Q(s, q)
    ensures Still(s, s')
  {
  }

  lemma FreeSlotUnqueued(s: Kernel, id: nat)
    requires Before(s) && id < |s.objects| && Obj(s, id).Free?
    ensures Q(s, ObjectQ(id)) == []
  {
    QueueMembers(s, ObjectQ(id));
    HeadIn(Q(s, ObjectQ(id)));
  }

  lemma InitObjectKept(s: Kernel, o: Object, nullPtr: bool, oom: bool)
    requires Before(s) && Cur(s).cont.ToUser?
    requires o == Lock(None) || o.Cvar? || (o.Pipe? && o.buf == o.taken == o.written == [])
    ensures var s' := InitObject(s, o, nullPtr, oom); Went(s, s', Blocks(s, s')) && IpcKept(s, s')
  {
    hide Before, Went, IpcKept, Blocks;
    ReturnKept(s, ERROR);
    var id := FirstFree(s.objects);
    if id < |s.objects| {
      FreeSlotUnqueued(s, id);
      SlotKept(s, id, o, s.queues[ObjectQ(id) := []]);
      var s1 := SetQ(SetObj(s, id, o), ObjectQ(id), []);
      ThenFinish(s, s1, Cur(s1).(user := Cur(s1).user.(stored := id)), SUCCESS);
    }
  }

  lemma ReclaimKept(s: Kernel, id: int)
    requires Before(s) && Cur(s).cont.ToUser?
    ensures var s' := Reclaim(s, id); Went(s, s', Blocks(s, s')) && IpcKept(s, s')
  {
    hide Before, Went, IpcKept, Blocks;
    if Obj(s, id).Free? || LockOwner(s, id).Some? || Q(s, ObjectQ(id)) != [] {
      ReturnKept(s, ERROR);
    } else {
      SlotKept(s, id, Free, s.queues);
      ThenReturn(s, SetObj(s, id, Free), SUCCESS);
    }
  }
}
