/** Locks, condition variables and pipes: what each operation keeps of LockInv. */
module LockProofs {
  import opened Common
  import opened KernelState
  import opened KernelSteps
  import opened KernelInvariants
  import opened PlaceProofs
  import opened OperationPlaces

  predicate SameLockPart(a: Pcb, b: Pcb) {
    && b.cont == a.cont && b.blockQueue == a.blockQueue && b.user.held == a.user.held
    && (b.state.Zombie? <==> a.state.Zombie?)
  }

  ghost predicate SameLocks(s: Kernel, s': Kernel) {
    && s'.objects == s.objects && s'.idle == s.idle && s'.procs.Keys == s.procs.Keys
    && (forall p :: p in s.procs ==> SameLockPart(s.procs[p], s'.procs[p]))
  }

  lemma LocksKept(s: Kernel, s': Kernel)
    requires LockInv(s) && SameLocks(s, s')
    ensures LockInv(s')
  {
    assert forall i: int :: Obj(s', i) == Obj(s, i);
  }

  lemma ScheduleLocks(s: Kernel, s': Kernel)
    requires LockInv(s) && ScheduleFrame(s, s')
    ensures LockInv(s')
  {
    assert SameLocks(s, s') by {
      assert forall p :: p in s.procs ==> SameButSchedule(s.procs[p], s'.procs[p]);
    }
    LocksKept(s, s');
  }

  /** The current process goes on to something that involves no lock. */
  lemma CurrentMovesOn(s: Kernel, s': Kernel)
    requires LockInv(s) && s.current in s.procs && !Cur(s).cont.InAcquire?
    requires s'.objects == s.objects && s'.idle == s.idle && s'.procs == s.procs[s.current := Proc(s', s.current)]
    requires var a, b := Cur(s), Proc(s', s.current);
      && b.user.held == a.user.held
      && !b.cont.InAcquire? && !b.cont.InCvarWait? && (s.current == s.idle ==> b.cont.ToUser?)
      && (b.state.Zombie? <==> a.state.Zombie?)
      && (b.blockQueue.Some? ==> !b.blockQueue.value.ObjectQ?)
    ensures LockInv(s')
  {
    assert forall i: int :: Obj(s', i) == Obj(s, i);
  }

  /** The current process queues up for object q.id, or at a terminal. */
  lemma EnqueueLocks(s: Kernel, q: QueueId, c: Cont)
    requires LockInv(s) && s.current in s.procs && s.current != s.idle && !Cur(s).cont.InAcquire?
    requires q.ObjectQ? ==> WaitsRight(Enqueue(s, q, c), s.current, q.id)
    requires c.InAcquire? ==> q == ObjectQ(c.lock)
    requires c.InCvarWait? ==> LockOwner(s, c.mutex) != Some(s.current)
    ensures LockInv(Enqueue(s, q, c))
  {
    var s' := Enqueue(s, q, c);
    assert forall i: int :: Obj(s', i) == Obj(s, i);
  }

  /** The current process gets a lock that is free, or that it was handed while it waited. */
  lemma GrantLocks(s: Kernel, l: nat)
    requires LockInv(s) && s.current in s.procs && s.current != s.idle && Cur(s).blockQueue.None? && !Cur(s).state.Zombie?
    requires Obj(s, l) == Lock(None) || (Obj(s, l) == Lock(Some(s.current)) && Cur(s).cont == InAcquire(l))
    requires Cur(s).cont.InAcquire? ==> Obj(s, l) == Lock(Some(s.current)) && Cur(s).cont == InAcquire(l)
    ensures LockInv(Granted(SetObj(s, l, Lock(Some(s.current))), l))
  {
    var s' := Granted(SetObj(s, l, Lock(Some(s.current))), l);
    assert forall i: int :: Obj(s', i) == if i == l then Lock(Some(s.current)) else Obj(s, i);
  }

  // ---------- waking ----------

  /** Processes queued on something that is not a lock are made ready. */
  lemma AwakeLocks(s: Kernel, s': Kernel, ws: set<Pid>)
    requires LockInv(s) && s'.objects == s.objects && s'.idle == s.idle && s'.procs.Keys == s.procs.Keys
    requires forall p :: p in s.procs ==> s'.procs[p] == if p in ws then Awake(s.procs[p]) else s.procs[p]
    requires forall p :: p in ws && p in s.procs ==> !s.procs[p].cont.InAcquire? && !s.procs[p].state.Zombie?
    ensures LockInv(s')
  {
    assert forall i: int :: Obj(s', i) == Obj(s, i);
  }

  // ---------- LockRelease ----------

  /** The current process has let go of lock l, and the first waiter, if any, owns it. */
  ghost predicate Handed(s: Kernel, l: nat, s': Kernel)
    requires l < |s.objects|
  {
    var q := Q(s, ObjectQ(l));
    var next := if q == [] then None else Some(q[0]);
    && s' == s.(procs := s'.procs, queues := s'.queues, ready := s'.ready, objects := s'.objects)
    && s'.procs.Keys == s.procs.Keys
    && s'.objects == s.objects[l := Lock(next)]
    && s'.ready == s.ready + (if q == [] then [] else [q[0]])
    && (forall r :: Q(s', r) == if r == ObjectQ(l) && q != [] then q[1..] else Q(s, r))
    && (forall p :: p in s.procs && p != s.current ==>
          s'.procs[p] == if next == Some(p) then Awake(s.procs[p]) else s.procs[p])
    && (s.current in s.procs ==> s'.procs[s.current] == Cur(s).WithHeld(Cur(s).user.held - {l}))
  }

  lemma LetGoStill(s: Kernel, l: nat)
    requires s.current in s.procs
    ensures Still(s, SetObj(SetCur(s, Cur(s).WithHeld(Cur(s).user.held - {l})), l, Lock(None)))
  {
  }

  lemma LockReleaseHands(s: Kernel, l: nat)
    requires PlaceBase(s) && !Cur(s).state.Blocked? && Obj(s, l) == Lock(Some(s.current))
    ensures PlaceBase(LockRelease(s, l)) && Handed(s, l, LockRelease(s, l)) && Forward(s, LockRelease(s, l))
  {
    hide WakeOne, Forward, Handed, LockRelease, Still, QueuesAgree, ReadyAgrees, WritersAgree, ParksAgree;
    assert s.current in s.procs;
    hide PlaceBase, RunningAgrees;
    var s2 := SetObj(SetCur(s, Cur(s).WithHeld(Cur(s).user.held - {l})), l, Lock(None));
    LetGoStill(s, l);
    StillPlaces(s, s2);
    WakeOnePlaces(s2, ObjectQ(l));
    NobodyWoken(s2, ObjectQ(l));
    var s3 := WakeOne(s2, ObjectQ(l));
    LockReleaseIs(s, l, s3);
    WakeOneForward(s2, ObjectQ(l));
    StillPlaces(s3, LockRelease(s, l));
    ForwardTrans(s, s2, s3);
    ForwardTrans(s, s3, LockRelease(s, l));
  }

  lemma NobodyWoken(s: Kernel, q: QueueId)
    ensures Q(s, q) == [] ==> WakeOne(s, q) == s
  {
  }

  lemma WakeOneForward(s: Kernel, q: QueueId)
    requires PlaceBase(s) && !Cur(s).state.Blocked?
    ensures Forward(s, WakeOne(s, q))
  {
    WakeOnePlaces(s, q);
    QueueMembers(s, q);
    hide PlaceBase, WakeOne, Forward;
    if Q(s, q) != [] {
      WokenForward(s, WakeOne(s, q), [Q(s, q)[0]]);
    }
  }

  lemma LockReleaseIs(s: Kernel, l: nat, s3: Kernel)
    requires s.current in s.procs && Obj(s, l) == Lock(Some(s.current))
    requires var s2 := SetObj(SetCur(s, Cur(s).WithHeld(Cur(s).user.held - {l})), l, Lock(None));
      && s3 == WakeOne(s2, ObjectQ(l))
      && (Q(s, ObjectQ(l)) == [] ==> s3 == s2)
      && (Q(s, ObjectQ(l)) != [] ==>
            var p := Q(s, ObjectQ(l))[0];
            && p in s2.procs && p != s.current
            && s3 == s2.(procs := s2.procs[p := Awake(s2.procs[p])],
                         queues := s2.queues[ObjectQ(l) := Q(s, ObjectQ(l))[1..]], ready := s2.ready + [p]))
    ensures Handed(s, l, LockRelease(s, l)) && Still(s3, LockRelease(s, l))
  {
    hide WakeOne;
    var s' := LockRelease(s, l);
    assert Q(s, ObjectQ(l)) == [] ==> s' == s3;
    assert Q(s, ObjectQ(l)) != [] ==> s' == SetObj(s3, l, Lock(Some(Q(s, ObjectQ(l))[0])));
    assert s'.objects == s.objects[l := Lock(Woken(s, ObjectQ(l)))];
  }

  /** What HandedLocks needs to know of the processes waiting for l. */
  ghost predicate Queueing(s: Kernel, l: nat) {
    && Unique(Q(s, ObjectQ(l))) && Obj(s, l) == Lock(Some(s.current)) && s.current in s.procs
    && !Cur(s).cont.InAcquire?
    && (forall p :: p in s.procs ==> (s.procs[p].blockQueue == Some(ObjectQ(l)) <==> p in Q(s, ObjectQ(l))))
    && (forall p :: p in Q(s, ObjectQ(l)) ==>
          p in s.procs && p != s.current && p != s.idle && s.procs[p].state.Blocked? && s.procs[p].cont == InAcquire(l))
  }

  lemma HandedWaiters(s: Kernel, l: nat, s': Kernel)
    requires WaitersRight(s) && Queueing(s, l) && Handed(s, l, s')
    ensures WaitersRight(s')
  {
    assert forall i: int :: Obj(s', i) == if i == l then s'.objects[l] else Obj(s, i);
    var q := Q(s, ObjectQ(l));
    assert q != [] ==> q[0] in q;
  }

  lemma HandedOwners(s: Kernel, l: nat, s': Kernel)
    requires OwnersRight(s) && HoldersRight(s) && Queueing(s, l) && Handed(s, l, s')
    ensures OwnersRight(s') && HoldersRight(s')
  {
    hide Unique;
    assert forall i: int :: Obj(s', i) == if i == l then s'.objects[l] else Obj(s, i);
    var q := Q(s, ObjectQ(l));
    assert q != [] ==> q[0] in q;
  }

  lemma HandedConts(s: Kernel, l: nat, s': Kernel)
    requires ContsRight(s) && Queueing(s, l) && Handed(s, l, s')
    ensures ContsRight(s') && LockOwner(s', l) != Some(s.current)
  {
    assert forall i: int :: Obj(s', i) == if i == l then s'.objects[l] else Obj(s, i);
    var q := Q(s, ObjectQ(l));
    assert q != [] ==> q[0] in q;
  }

  lemma QueueingHolds(s: Kernel, l: nat)
    requires QueuesAgree(s) && WaitersRight(s) && s.current in s.procs && s.current !in Q(s, ObjectQ(l))
    requires s.idle in s.procs && !s.procs[s.idle].state.Blocked?
    requires forall p :: p in Q(s, ObjectQ(l)) ==> p in s.procs && s.procs[p].blockQueue == Some(ObjectQ(l)) && s.procs[p].state.Blocked?
    requires Obj(s, l) == Lock(Some(s.current)) && !Cur(s).cont.InAcquire?
    ensures Queueing(s, l)
  {
    assert Unique(Q(s, ObjectQ(l)));
  }

  lemma HandedLocks(s: Kernel, l: nat, s': Kernel)
    requires PlaceBase(s) && LockInv(s) && !Cur(s).state.Blocked?
    requires Obj(s, l) == Lock(Some(s.current)) && !Cur(s).cont.InAcquire? && Handed(s, l, s')
    ensures LockInv(s') && LockOwner(s', l) != Some(s.current)
  {
    assert s.current in s.procs && s.idle in s.procs && s.procs[s.idle].state.Running?;
    QueueMembers(s, ObjectQ(l));
    hide QueuesAgree, ReadyAgrees, WritersAgree, RunningAgrees, ParksAgree, Queueing, Handed, WaitersRight,
      OwnersRight, HoldersRight, ContsRight;
    QueueingHolds(s, l);
    HandedWaiters(s, l, s');
    HandedOwners(s, l, s');
    HandedConts(s, l, s');
  }
}
