/** What one step leaves alone: the other processes, the objects it does not name, the accepted output. */
module StepFrames {
  import opened Common
  import opened KernelState
  import opened KernelSteps

  /** What nobody but a process itself changes in its PCB; a delay may also end once its time has come. */
  predicate PartKept(a: Pcb, b: Pcb, clock: nat) {
    && b.cont == a.cont && b.ttyId == a.ttyId && b.user.held == a.user.held
    && b.kin.exitStatus == a.kin.exitStatus
    && b.io.writeBuf == a.io.writeBuf && b.io.readLen == a.io.readLen
    && (b.delayUntil == a.delayUntil || (b.delayUntil == 0 < a.delayUntil <= clock))
  }

  /** The same, and no line was handed over. */
  predicate WhollyKept(a: Pcb, b: Pcb, clock: nat) {
    PartKept(a, b, clock) && b.io.readLine == a.io.readLine
  }

  ghost predicate OthersKept(s: Kernel, s': Kernel, c: Pid) {
    && s'.clock == s.clock
    && (forall p :: p in s.procs && p != c ==> p in s'.procs && WhollyKept(s.procs[p], s'.procs[p], s.clock))
    && (forall p :: (p == c || p !in s.procs) && Proc(s, p).io.readLine.None? ==> Proc(s', p).io.readLine.None?)
  }

  /** Whoever but c is to get the processor exists and is no zombie, and whoever is queued exists. */
  ghost predicate Alive(s: Kernel, c: Pid) {
    && (forall p :: p != c && (p in s.ready || p == s.idle) ==> p in s.procs && !s.procs[p].state.Zombie?)
    && (forall q, p :: q in s.queues && p in s.queues[q] && p != c ==> p in s.procs)
  }

  /** No process but c comes, goes or becomes a zombie. */
  ghost predicate SamePids(s: Kernel, s': Kernel, c: Pid) {
    && s'.idle == s.idle && s.procs.Keys <= s'.procs.Keys <= s.procs.Keys + {c}
    && forall p :: p in s.procs && p != c ==> (s'.procs[p].state.Zombie? <==> s.procs[p].state.Zombie?)
  }

  predicate ObjectKept(s: Kernel, s': Kernel, i: nat) {
    Obj(s', i) == Obj(s, i) && Q(s', ObjectQ(i)) == Q(s, ObjectQ(i))
  }

  /** Between s and s' only process c, the objects named in ids, and scheduling state have changed. */
  ghost predicate Touches(s: Kernel, s': Kernel, c: Pid, ids: set<int>) {
    && OthersKept(s, s', c) && (Alive(s, c) ==> SamePids(s, s', c) && Alive(s', c))
    && (forall i: nat :: i !in ids ==> ObjectKept(s, s', i))
    && |s'.objects| == |s.objects| && |s'.terms| == |s.terms|
    && (forall t: nat :: Term(s', t).accepted == Term(s, t).accepted)
  }

  lemma TouchesTrans(s: Kernel, s1: Kernel, s2: Kernel, c: Pid, ids1: set<int>, ids2: set<int>, ids: set<int>)
    requires Touches(s, s1, c, ids1) && Touches(s1, s2, c, ids2) && ids1 <= ids && ids2 <= ids
    ensures Touches(s, s2, c, ids)
  {
    forall i: nat | i !in ids ensures ObjectKept(s, s2, i) {
      assert ObjectKept(s, s1, i) && ObjectKept(s1, s2, i);
    }
  }

  // ---------- the helpers ----------

  lemma SetProcTouches(s: Kernel, p: Pid, pcb: Pcb, c: Pid)
    requires p == c || WhollyKept(Proc(s, p), pcb, s.clock)
    requires p != c && Alive(s, c) ==> p in s.procs && (pcb.state.Zombie? <==> s.procs[p].state.Zombie?)
    requires Proc(s, p).io.readLine.None? ==> pcb.io.readLine.None?
    ensures Touches(s, SetProc(s, p, pcb), c, {})
  {
    hide Alive, SamePids, OthersKept;
    SetProcKeeps(s, p, pcb, c);
    if Alive(s, c) {
      SetProcPids(s, p, pcb, c);
    }
  }

  lemma SetProcKeeps(s: Kernel, p: Pid, pcb: Pcb, c: Pid)
    requires p == c || WhollyKept(Proc(s, p), pcb, s.clock)
    requires Proc(s, p).io.readLine.None? ==> pcb.io.readLine.None?
    ensures OthersKept(s, SetProc(s, p, pcb), c)
  {
  }

  lemma SetProcPids(s: Kernel, p: Pid, pcb: Pcb, c: Pid)
    requires Alive(s, c) && (p == c || (p in s.procs && (pcb.state.Zombie? <==> s.procs[p].state.Zombie?)))
    ensures SamePids(s, SetProc(s, p, pcb), c) && Alive(SetProc(s, p, pcb), c)
  {
  }

  lemma MakeReadyTouches(s: Kernel, p: Pid, pcb: Pcb, c: Pid)
    requires (p == c && (Proc(s, p).io.readLine.None? ==> pcb.io.readLine.None?)) || WhollyKept(Proc(s, p), pcb, s.clock)
    requires p != c ==> (pcb.state.Zombie? <==> Proc(s, p).state.Zombie?)
    ensures Touches(s, MakeReady(s, p, pcb), c, {}) && MakeReady(s, p, pcb).current == s.current
  {
    hide Touches;
    if p !in s.procs {
      TouchesRefl(s, c, {});
    } else if p == s.idle || pcb.state.Zombie? {
      SetProcTouches(s, p, pcb, c);
    } else {
      var s1 := SetProc(s, p, pcb.(state := Ready));
      SetProcTouches(s, p, pcb.(state := Ready), c);
      ReadyTouches(s1, p, c);
      TouchesTrans(s, s1, MakeReady(s, p, pcb), c, {}, {}, {});
    }
  }

  lemma ReadyTouches(s: Kernel, p: Pid, c: Pid)
    requires p in s.procs && !s.procs[p].state.Zombie?
    ensures Touches(s, s.(ready := if p in s.ready then s.ready else s.ready + [p]), c, {})
  {
  }

  lemma SetQTouches(s: Kernel, q: QueueId, v: seq<Pid>, c: Pid)
    requires forall p :: p in v ==> p == c || p in Q(s, q)
    ensures Touches(s, SetQ(s, q, v), c, if q.ObjectQ? then {q.id} else {})
  {
  }

  lemma SetObjTouches(s: Kernel, i: nat, o: Object, c: Pid)
    ensures Touches(s, SetObj(s, i, o), c, {i})
  {
  }

  lemma SetTermTouches(s: Kernel, t: nat, term: Terminal, c: Pid)
    requires term.accepted == Term(s, t).accepted
    ensures Touches(s, SetTerm(s, t, term), c, {})
  {
  }

  lemma WakeOneTouches(s: Kernel, q: QueueId, c: Pid)
    ensures Touches(s, WakeOne(s, q), c, if q.ObjectQ? then {q.id} else {}) && WakeOne(s, q).current == s.current
  {
    hide Touches, MakeReady, SetQ;
    if Q(s, q) == [] {
      TouchesRefl(s, c, if q.ObjectQ? then {q.id} else {});
    } else {
      var s1 := SetQ(s, q, Q(s, q)[1..]);
      SetQTouches(s, q, Q(s, q)[1..], c);
      var p := Q(s, q)[0];
      MakeReadyTouches(s1, p, Proc(s1, p).(blockQueue := None).Returning(SUCCESS), c);
      TouchesTrans(s, s1, WakeOne(s, q), c, if q.ObjectQ? then {q.id} else {}, {}, if q.ObjectQ? then {q.id} else {});
      SetQIds(s, q, Q(s, q)[1..]);
    }
  }

  lemma SetQIds(s: Kernel, q: QueueId, v: seq<Pid>)
    ensures SetQ(s, q, v).current == s.current
  {
  }

  lemma TouchesRefl(s: Kernel, c: Pid, ids: set<int>)
    ensures Touches(s, s, c, ids)
  {
  }

  lemma {:induction false} WakeAllTouches(s: Kernel, q: QueueId, c: Pid)
    ensures Touches(s, WakeAll(s, q), c, if q.ObjectQ? then {q.id} else {}) && WakeAll(s, q).current == s.current
    decreases |Q(s, q)|
  {
    hide Touches, WakeOne;
    var ids := if q.ObjectQ? then {q.id} else {};
    if Q(s, q) == [] {
      TouchesRefl(s, c, ids);
    } else {
      WakeOneTouches(s, q, c);
      WakeAllTouches(WakeOne(s, q), q, c);
      TouchesTrans(s, WakeOne(s, q), WakeAll(s, q), c, ids, ids, ids);
    }
  }

  lemma LockReleaseTouches(s: Kernel, l: nat, c: Pid)
    requires Obj(s, l) == Lock(Some(c))
    ensures Touches(s, LockRelease(s, l), c, {l}) && LockRelease(s, l).current == s.current
  {
    hide Touches, WakeOne;
    var s1 := SetProc(s, c, Proc(s, c).WithHeld(Proc(s, c).user.held - {l}));
    SetProcTouches(s, c, Proc(s, c).WithHeld(Proc(s, c).user.held - {l}), c);
    var s2 := SetObj(s1, l, Lock(None));
    SetObjTouches(s1, l, Lock(None), c);
    TouchesTrans(s, s1, s2, c, {}, {l}, {l});
    WakeOneTouches(s2, ObjectQ(l), c);
    var s3 := WakeOne(s2, ObjectQ(l));
    TouchesTrans(s, s2, s3, c, {l}, {l}, {l});
    var next := Woken(s2, ObjectQ(l));
    SetObjTouches(s3, l, Lock(next), c);
    TouchesTrans(s, s3, SetObj(s3, l, Lock(next)), c, {l}, {l}, {l});
  }

  lemma {:induction false} ReleaseAllTouches(s: Kernel, c: Pid, i: nat, ids: set<int>)
    requires forall j: nat :: i <= j < |s.objects| && Obj(s, j) == Lock(Some(c)) ==> j in ids
    ensures Touches(s, ReleaseAll(s, c, i), c, ids) && ReleaseAll(s, c, i).current == s.current
    decreases |s.objects| - i
  {
    hide Touches, LockRelease;
    if i >= |s.objects| {
      TouchesRefl(s, c, ids);
    } else if Obj(s, i) == Lock(Some(c)) {
      var s1 := LockRelease(s, i);
      LockReleaseTouches(s, i, c);
      TouchedObjects(s, s1, c, {i});
      ReleaseAllTouches(s1, c, i + 1, ids);
      TouchesTrans(s, s1, ReleaseAll(s, c, i), c, {i}, ids, ids);
    } else {
      ReleaseAllTouches(s, c, i + 1, ids);
    }
  }

  lemma TouchedObjects(s: Kernel, s': Kernel, c: Pid, ids: set<int>)
    requires Touches(s, s', c, ids)
    ensures |s'.objects| == |s.objects| && forall j: nat :: j !in ids ==> Obj(s', j) == Obj(s, j)
  {
    forall j: nat | j !in ids ensures Obj(s', j) == Obj(s, j) {
      assert ObjectKept(s, s', j);
    }
  }

  lemma {:induction false} OrphanTouches(s: Kernel, c: Pid)
    requires forall x :: x in Proc(s, c).kin.children ==> x in s.procs
    ensures Touches(s, Orphan(s, c), c, {}) && Orphan(s, c).current == s.current
    decreases |Proc(s, c).kin.children|
  {
    hide Touches;
    var cs := Proc(s, c).kin.children;
    if cs == [] {
      TouchesRefl(s, c, {});
    } else {
      var s1 := SetProc(s, c, Proc(s, c).WithChildren(cs[1..]));
      var s2 := SetProc(s1, cs[0], Proc(s1, cs[0]).WithParent(None));
      SetProcTouches(s, c, Proc(s, c).WithChildren(cs[1..]), c);
      SetProcTouches(s1, cs[0], Proc(s1, cs[0]).WithParent(None), c);
      TouchesTrans(s, s1, s2, c, {}, {}, {});
      OrphanTouches(s2, c);
      TouchesTrans(s, s2, Orphan(s, c), c, {}, {}, {});
    }
  }

  // ---------- scheduling ----------

  lemma WakeDelayedAtTouches(s: Kernel, p: Pid, c: Pid)
    ensures Touches(s, WakeDelayedAt(s, p), c, {}) && WakeDelayedAt(s, p).current == s.current
  {
    hide Touches, MakeReady;
    TouchesRefl(s, c, {});
    if DelayOver(s, p) {
      MakeReadyTouches(s, p, s.procs[p].(delayUntil := 0), c);
    }
  }

  lemma {:induction false} WakeDelayedTouches(s: Kernel, i: nat, c: Pid)
    ensures Touches(s, WakeDelayed(s, i), c, {}) && WakeDelayed(s, i).current == s.current
    decreases MAX_PROCS - i
  {
    hide Touches, WakeDelayedAt;
    TouchesRefl(s, c, {});
    if i < MAX_PROCS {
      WakeDelayedAtTouches(s, i, c);
      WakeDelayedTouches(WakeDelayedAt(s, i), i + 1, c);
      TouchesTrans(s, WakeDelayedAt(s, i), WakeDelayed(s, i), c, {}, {}, {});
    }
  }

  lemma SwitchTouches(s: Kernel, c: Pid)
    ensures Touches(s, SwitchNext(s), c, {})
  {
    hide Touches;
    var next := if s.ready == [] then s.idle else s.ready[0];
    assert s.ready != [] ==> s.ready[0] in s.ready;
    SetProcTouches(s, next, Proc(s, next).(state := Running), c);
    var s1 := SetProc(s, next, Proc(s, next).(state := Running));
    DequeueTouches(s1, s1.current, c);
    DequeueTouches(s1, next, c);
    DequeueTouches(s, s.current, c);
    TouchesTrans(s, s1, s1.(ready := if s.ready == [] then s.ready else s.ready[1..], current := next), c, {}, {}, {});
  }

  lemma DequeueTouches(s: Kernel, next: Pid, c: Pid)
    ensures Touches(s, s.(ready := if s.ready == [] then s.ready else s.ready[1..], current := next), c, {})
  {
  }

  lemma RequeueTouches(s: Kernel, c: Pid)
    ensures Touches(s, RequeueCurrent(s), c, {})
  {
    hide Touches, MakeReady;
    TouchesRefl(s, c, {});
    MakeReadyTouches(s, s.current, Cur(s), c);
  }

  lemma ScheduleTouches(s: Kernel, c: Pid)
    ensures Touches(s, Schedule(s), c, {})
  {
    hide Touches, WakeDelayed, RequeueCurrent, SwitchNext;
    var s1 := WakeDelayed(s, 0);
    var s2 := RequeueCurrent(s1);
    WakeDelayedTouches(s, 0, c);
    RequeueTouches(s1, c);
    SwitchTouches(s2, c);
    TouchesTrans(s, s1, s2, c, {}, {}, {});
    TouchesTrans(s, s2, Schedule(s), c, {}, {}, {});
  }

  lemma BlockTouches(s: Kernel, q: QueueId, c: Cont)
    ensures Touches(s, BlockOn(s, q, c), s.current, if q.ObjectQ? then {q.id} else {})
  {
    hide Touches, Schedule;
    var ids := if q.ObjectQ? then {q.id} else {};
    var pcb := Cur(s).(state := Blocked, blockQueue := Some(q), cont := c);
    var s1 := SetCur(s, pcb);
    SetProcTouches(s, s.current, pcb, s.current);
    SetQTouches(s1, q, Q(s, q) + [s.current], s.current);
    TouchesTrans(s, s1, Enqueue(s, q, c), s.current, {}, ids, ids);
    ScheduleTouches(Enqueue(s, q, c), s.current);
    TouchesTrans(s, Enqueue(s, q, c), BlockOn(s, q, c), s.current, ids, {}, ids);
  }

  lemma FinishTouches(s: Kernel, s1: Kernel, pcb: Pcb, r: int, ids: set<int>)
    requires Touches(s, s1, s.current, ids) && s1.current == s.current
    requires Cur(s1).io.readLine.None? ==> pcb.io.readLine.None?
    ensures Touches(s, Finish(s1, pcb, r), s.current, ids)
  {
    hide Touches;
    SetProcTouches(s1, s.current, pcb.(cont := ToUser).Returning(r), s.current);
    TouchesTrans(s, s1, Finish(s1, pcb, r), s.current, ids, {}, ids);
  }

  lemma ReturnTouches(s: Kernel, r: int, ids: set<int>)
    ensures Touches(s, Return(s, r), s.current, ids)
  {
    hide Touches, Finish;
    TouchesRefl(s, s.current, ids);
    FinishTouches(s, s, Cur(s), r, ids);
  }

  // ---------- calls on objects ----------

  lemma GrantedTouches(s: Kernel, s1: Kernel, l: nat, ids: set<int>)
    requires Touches(s, s1, s.current, ids) && s1.current == s.current
    ensures Touches(s, Granted(s1, l), s.current, ids)
  {
    hide Touches, Finish;
    FinishTouches(s, s1, Cur(s1).WithHeld(Cur(s1).user.held + {l}), SUCCESS, ids);
  }

  lemma AcquireLoopTouches(s: Kernel, l: nat)
    requires Obj(s, l).Lock?
    ensures Touches(s, AcquireLoop(s, l), s.current, {l})
  {
    hide Touches, Granted, BlockOn;
    SetObjTouches(s, l, Lock(Some(s.current)), s.current);
    GrantedTouches(s, SetObj(s, l, Lock(Some(s.current))), l, {l});
    BlockTouches(s, ObjectQ(l), InAcquire(l));
  }

  lemma AcquireTouches(s: Kernel, l: int)
    ensures Touches(s, Acquire(s, l), s.current, {l})
  {
    hide Touches, AcquireLoop, Return;
    ReturnTouches(s, ERROR, {l});
    if Obj(s, l).Lock? {
      AcquireLoopTouches(s, l);
    }
  }

  lemma ResumeAcquireTouches(s: Kernel, l: nat)
    ensures Touches(s, ResumeAcquire(s, l), s.current, {l})
  {
    hide Touches, AcquireLoop, Return, Granted;
    ReturnTouches(s, ERROR, {l});
    TouchesRefl(s, s.current, {l});
    GrantedTouches(s, s, l, {l});
    if Obj(s, l).Lock? {
      AcquireLoopTouches(s, l);
    }
  }

  lemma ReleaseTouches(s: Kernel, l: int)
    ensures Touches(s, Release(s, l), s.current, {l})
  {
    hide Touches, LockRelease, Return;
    ReturnTouches(s, ERROR, {l});
    if LockOwner(s, l) == Some(s.current) {
      assert Obj(s, l) == Lock(Some(s.current));
      LockReleaseTouches(s, l, s.current);
      ReturnTouches(LockRelease(s, l), SUCCESS, {l});
      TouchesTrans(s, LockRelease(s, l), Release(s, l), s.current, {l}, {l}, {l});
    }
  }

  lemma CvarWaitTouches(s: Kernel, c: int, l: int)
    ensures Touches(s, CvarWait(s, c, l), s.current, {c, l})
  {
    hide Touches, LockRelease, Return, BlockOn;
    ReturnTouches(s, ERROR, {c, l});
    if Obj(s, c).Cvar? && LockOwner(s, l) == Some(s.current) {
      assert Obj(s, l) == Lock(Some(s.current));
      LockReleaseTouches(s, l, s.current);
      BlockTouches(LockRelease(s, l), ObjectQ(c), InCvarWait(c, l));
      TouchesTrans(s, LockRelease(s, l), CvarWait(s, c, l), s.current, {l}, {c}, {c, l});
    }
  }

  lemma ResumeCvarWaitTouches(s: Kernel, c: nat, l: int)
    ensures Touches(s, ResumeCvarWait(s, c, l), s.current, {l})
  {
    hide Touches, Acquire, Return;
    ReturnTouches(s, ERROR, {l});
    AcquireTouches(s, l);
  }

  lemma WakingTouches(s: Kernel, s1: Kernel, s2: Kernel, r: int, id: nat)
    requires Touches(s, s1, s.current, {id}) && s1.current == s.current
    requires s2 == WakeOne(s1, ObjectQ(id)) || s2 == WakeAll(s1, ObjectQ(id))
    ensures Touches(s, Return(s2, r), s.current, {id})
  {
    hide Touches, WakeOne, WakeAll, Finish;
    WakeOneTouches(s1, ObjectQ(id), s.current);
    WakeAllTouches(s1, ObjectQ(id), s.current);
    TouchesTrans(s, s1, s2, s.current, {id}, {id}, {id});
    FinishTouches(s, s2, Cur(s2), r, {id});
  }

  lemma SignalTouches(s: Kernel, c: int)
    ensures Touches(s, Signal(s, c), s.current, {c}) && Touches(s, Broadcast(s, c), s.current, {c})
  {
    hide Touches, WakeOne, WakeAll, Return;
    ReturnTouches(s, ERROR, {c});
    if Obj(s, c).Cvar? {
      TouchesRefl(s, s.current, {c});
      WakingTouches(s, s, WakeOne(s, ObjectQ(c)), SUCCESS, c);
      WakingTouches(s, s, WakeAll(s, ObjectQ(c)), SUCCESS, c);
    }
  }

  lemma PipeReadLoopTouches(s: Kernel, id: nat, len: Positive)
    requires Obj(s, id).Pipe?
    ensures Touches(s, PipeReadLoop(s, id, len), s.current, {id})
  {
    hide Touches, BlockOn, Finish;
    var pipe := Obj(s, id);
    if pipe.buf == [] {
      BlockTouches(s, ObjectQ(id), InPipeRead(id, len));
    } else {
      var n := Min(|pipe.buf|, len);
      var o := pipe.(buf := pipe.buf[n..], taken := pipe.taken + pipe.buf[..n]);
      SetObjTouches(s, id, o, s.current);
      var s1 := SetObj(s, id, o);
      FinishTouches(s, s1, Cur(s1).(user := Cur(s1).user.(got := pipe.buf[..n])), n, {id});
    }
  }

  lemma PipeReadTouches(s: Kernel, id: int, len: int, nullBuf: bool)
    ensures Touches(s, PipeRead(s, id, len, nullBuf), s.current, {id})
  {
    hide Touches, PipeReadLoop, Return;
    ReturnTouches(s, ERROR, {id});
    ReturnTouches(s, 0, {id});
    if Obj(s, id).Pipe? && len > 0 {
      PipeReadLoopTouches(s, id, len);
    }
  }

  lemma ResumePipeReadTouches(s: Kernel, id: nat, len: Positive)
    ensures Touches(s, ResumePipeRead(s, id, len), s.current, {id})
  {
    hide Touches, PipeReadLoop, Return;
    ReturnTouches(s, ERROR, {id});
    if Obj(s, id).Pipe? {
      PipeReadLoopTouches(s, id, len);
    }
  }

  lemma PipeWriteTouches(s: Kernel, id: int, mem: Option<seq<Byte>>, len: int, oom: bool)
    requires mem.Some? && len > 0 ==> len <= |mem.value|
    ensures Touches(s, PipeWrite(s, id, mem, len, oom), s.current, {id})
  {
    hide Touches, WakeAll, Return, Appended;
    ReturnTouches(s, ERROR, {id});
    ReturnTouches(s, 0, {id});
    if Obj(s, id).Pipe? && len > 0 && mem.Some? {
      var o := Appended(Obj(s, id), mem.value[..len]);
      SetObjTouches(s, id, o, s.current);
      WakingTouches(s, SetObj(s, id, o), WakeAll(SetObj(s, id, o), ObjectQ(id)), len, id);
    }
  }

  lemma InitObjectTouches(s: Kernel, o: Object, nullPtr: bool, oom: bool)
    ensures Touches(s, InitObject(s, o, nullPtr, oom), s.current, {FirstFree(s.objects)})
  {
    hide Touches, Finish, FirstFree;
    var id := FirstFree(s.objects);
    ReturnTouches(s, ERROR, {id});
    SetObjTouches(s, id, o, s.current);
    var s1 := SetObj(s, id, o);
    SetQTouches(s1, ObjectQ(id), [], s.current);
    var s2 := SetQ(s1, ObjectQ(id), []);
    TouchesTrans(s, s1, s2, s.current, {id}, {id}, {id});
    FinishTouches(s, s2, Cur(s2).(user := Cur(s2).user.(stored := id)), SUCCESS, {id});
  }

  lemma ReclaimTouches(s: Kernel, id: int)
    ensures Touches(s, Reclaim(s, id), s.current, {id})
  {
    hide Touches, Finish;
    ReturnTouches(s, ERROR, {id});
    if !Obj(s, id).Free? {
      SetObjTouches(s, id, Free, s.current);
      FinishTouches(s, SetObj(s, id, Free), Cur(SetObj(s, id, Free)), SUCCESS, {id});
    }
  }

  // ---------- terminals ----------

  lemma HeadQueued(s: Kernel, q: QueueId)
    requires Q(s, q) != []
    ensures q in s.queues && Q(s, q)[0] in s.queues[q]
  {
  }

  lemma {:induction false} StartWriteTouches(s: Kernel, t: nat, c: Pid)
    requires t < |s.terms|
    ensures Touches(s, StartWrite(s, t), c, {}) && StartWrite(s, t).current == s.current
    decreases |Q(s, WriteQ(t))| + (if Term(s, t).writer.Some? then 1 else 0), 1
  {
    hide Touches;
    TouchesRefl(s, c, {});
    var term := Term(s, t);
    if !term.busy && term.writer.Some? {
      TransmitTouches(s, t, c);
    } else if !term.busy && Q(s, WriteQ(t)) != [] {
      var w := Q(s, WriteQ(t))[0];
      var s1 := SetProc(s, w, Proc(s, w).(blockQueue := None));
      var s2 := SetQ(s1, WriteQ(t), Q(s, WriteQ(t))[1..]);
      var s3 := SetTerm(s2, t, term.(writer := Some(w)));
      HeadQueued(s, WriteQ(t));
      SetProcTouches(s, w, Proc(s, w).(blockQueue := None), c);
      SetQTouches(s1, WriteQ(t), Q(s, WriteQ(t))[1..], c);
      TouchesTrans(s, s1, s2, c, {}, {}, {});
      SetTermTouches(s2, t, term.(writer := Some(w)), c);
      TouchesTrans(s, s2, s3, c, {}, {}, {});
      TransmitTouches(s3, t, c);
      TouchesTrans(s, s3, Transmit(s3, t), c, {}, {}, {});
    }
  }

  lemma {:induction false} TransmitTouches(s: Kernel, t: nat, c: Pid)
    requires t < |s.terms| && Term(s, t).writer.Some?
    ensures Touches(s, Transmit(s, t), c, {}) && Transmit(s, t).current == s.current
    decreases |Q(s, WriteQ(t))| + 1, 0
  {
    hide Touches;
    var term := Term(s, t);
    var w := term.writer.value;
    var pcb := Proc(s, w);
    var io := pcb.io;
    if io.writeOffset >= |io.writeBuf| {
      var s1 := SetTerm(s, t, term.(writer := None));
      SetTermTouches(s, t, term.(writer := None), c);
      MakeReadyTouches(s1, w, pcb, c);
      var s2 := MakeReady(s1, w, pcb);
      TouchesTrans(s, s1, s2, c, {}, {}, {});
      StartWriteTouches(s2, t, c);
      TouchesTrans(s, s2, StartWrite(s2, t), c, {}, {}, {});
    } else {
      var end := Min(io.writeOffset + TERMINAL_MAX_LINE, |io.writeBuf|);
      var term' := term.(busy := true, sent := term.sent + [io.writeBuf[io.writeOffset..end]]);
      var s1 := SetTerm(s, t, term');
      var pcb' := pcb.(io := io.(writeOffset := end, writeChunks := io.writeChunks + 1));
      SetTermTouches(s, t, term', c);
      SetProcTouches(s1, w, pcb', c);
      TouchesTrans(s, s1, SetProc(s1, w, pcb'), c, {}, {}, {});
    }
  }

  lemma TrapTransmitTouches(s: Kernel, t: int, c: Pid)
    ensures Touches(s, TrapTransmit(s, t), c, {})
  {
    hide Touches, StartWrite, MakeReady;
    TouchesRefl(s, c, {});
    if 0 <= t < |s.terms| {
      var term := Term(s, t).(busy := false);
      var s1 := SetTerm(s, t, term);
      SetTermTouches(s, t, term, c);
      StartWriteTouches(s1, t, c);
      TouchesTrans(s, s1, StartWrite(s1, t), c, {}, {}, {});
      if term.writer.Some? {
        var w := term.writer.value;
        var pcb := Proc(s1, w).Returning(|Proc(s1, w).io.writeBuf|);
        var s2 := SetTerm(s1, t, Term(s1, t).(writer := None));
        SetTermTouches(s1, t, Term(s1, t).(writer := None), c);
        TouchesTrans(s, s1, s2, c, {}, {}, {});
        MakeReadyTouches(s2, w, pcb, c);
        var s3 := MakeReady(s2, w, pcb);
        TouchesTrans(s, s2, s3, c, {}, {}, {});
        TermsLength(s2, w, pcb);
        StartWriteTouches(s3, t, c);
        TouchesTrans(s, s3, StartWrite(s3, t), c, {}, {}, {});
      }
    }
  }

  lemma TermsLength(s: Kernel, p: Pid, pcb: Pcb)
    ensures |MakeReady(s, p, pcb).terms| == |s.terms|
  {
  }

  /** The state in which the first reader of terminal t already has its line. */
  function WithLine(s: Kernel, t: nat, data: seq<Byte>): Kernel {
    if Q(s, ReadQ(t)) == [] then s
    else var r := Q(s, ReadQ(t))[0];
      SetProc(s, r, Proc(s, r).(io := Proc(s, r).io.(readLine := Some(Line(data, 0)))))
  }

  lemma TrapReceiveTouches(s: Kernel, t: nat, data: seq<Byte>, c: Pid)
    requires t < |s.terms| && (Q(s, ReadQ(t)) != [] ==> Q(s, ReadQ(t))[0] in s.procs)
    ensures Touches(WithLine(s, t, data), TrapReceive(s, t, data, true), c, {})
    ensures TrapReceive(s, t, data, true).terms ==
      if Q(s, ReadQ(t)) == [] then s.terms[t := s.terms[t].(inputQueue := s.terms[t].inputQueue + [Line(data, 0)])] else s.terms
  {
    hide Touches;
    if Q(s, ReadQ(t)) == [] {
      SetTermTouches(s, t, Term(s, t).(inputQueue := Term(s, t).inputQueue + [Line(data, 0)]), c);
    } else {
      var r := Q(s, ReadQ(t))[0];
      var s0 := WithLine(s, t, data);
      var s1 := SetQ(s0, ReadQ(t), Q(s0, ReadQ(t))[1..]);
      var pcb := Proc(s1, r).(blockQueue := None);
      SetQTouches(s0, ReadQ(t), Q(s0, ReadQ(t))[1..], c);
      MakeReadyTouches(s1, r, pcb, c);
      TouchesTrans(s0, s1, MakeReady(s1, r, pcb), c, {}, {}, {});
      assert TrapReceive(s, t, data, true).procs == MakeReady(s1, r, pcb).procs;
    }
  }

  lemma TtyReadLoopTouches(s: Kernel, t: nat)
    ensures Touches(s, TtyReadLoop(s, t), s.current, {})
  {
    hide Touches, BlockOn, Finish, SetTerm;
    var (found, term) := NextLine(Term(s, t), Cur(s));
    match found
    case None => BlockTouches(s, ReadQ(t), InTtyRead);
    case Some(line) =>
      var n := Min(|line.data| - line.pos, Cur(s).io.readLen);
      var rest := Line(line.data, line.pos + n);
      var term' := if rest.pos < |rest.data| then term.(line := Some(rest)) else term;
      SetTermTouches(s, t, term', s.current);
      var s1 := SetTerm(s, t, term');
      SetTermIds(s, t, term');
      FinishTouches(s, s1, Cur(s1).(io := Cur(s1).io.(readLine := None), user := Cur(s1).user.(got := line.data[line.pos..rest.pos])), n, {});
  }

  lemma SetTermIds(s: Kernel, t: nat, term: Terminal)
    ensures SetTerm(s, t, term).current == s.current && SetTerm(s, t, term).procs == s.procs
  {
  }

  lemma TtyReadTouches(s: Kernel, t: int, len: int, nullBuf: bool)
    ensures Touches(s, TtyRead(s, t, len, nullBuf), s.current, {})
  {
    hide Touches, TtyReadLoop, Finish;
    ReturnTouches(s, ERROR, {});
    ReturnTouches(s, 0, {});
    if 0 <= t && 0 <= len {
      var pcb := Cur(s).(ttyId := t, io := Cur(s).io.(readLen := len));
      SetProcTouches(s, s.current, pcb, s.current);
      TtyReadLoopTouches(SetCur(s, pcb), t);
      TouchesTrans(s, SetCur(s, pcb), TtyReadLoop(SetCur(s, pcb), t), s.current, {}, {}, {});
    }
  }

  /** The bytes a step adds to the accepted output of terminal t. */
  function AcceptedBy(s: Kernel, e: Event, t: nat): seq<Byte>
    requires Legal(s, e)
  {
    if e.EvTtyWrite? && e.tty == t && t < |s.terms| && e.mem.Some? && e.len > 0 && s.current != s.idle && !e.oom
    then e.mem.value[..e.len] else []
  }

  function WithAccepted(s: Kernel, t: nat, data: seq<Byte>): Kernel {
    SetTerm(s, t, Term(s, t).(accepted := Term(s, t).accepted + data))
  }

  lemma TtyWriteTouches(s: Kernel, t: int, mem: Option<seq<Byte>>, len: int)
    requires mem.Some? && 0 < len <= |mem.value| && 0 <= t < |s.terms| && s.current != s.idle
    ensures Touches(WithAccepted(s, t, mem.value[..len]), TtyWrite(s, t, mem, len, false), s.current, {})
  {
    hide Touches, StartWrite, Schedule;
    var c := s.current;
    var data := mem.value[..len];
    var s1 := WithAccepted(s, t, data);
    var pcb := Cur(s1).(ttyId := t, io := Cur(s1).io.(writeBuf := data, writeOffset := 0, writeChunks := 0),
                        state := Blocked, cont := InTtyWrite).Returning(len);
    var s2 := SetCur(s1, pcb);
    SetProcTouches(s1, c, pcb, c);
    var s3 := SetTerm(s2, t, Term(s2, t).(writer := Some(c)));
    SetTermTouches(s2, t, Term(s2, t).(writer := Some(c)), c);
    TouchesTrans(s1, s2, s3, c, {}, {}, {});
    StartWriteTouches(s3, t, c);
    TouchesTrans(s1, s3, StartWrite(s3, t), c, {}, {}, {});
    ScheduleTouches(StartWrite(s3, t), c);
    TouchesTrans(s1, StartWrite(s3, t), Schedule(StartWrite(s3, t)), c, {}, {}, {});
    var s4 := SetCur(s2, Cur(s2).(blockQueue := Some(WriteQ(t))));
    SetProcTouches(s2, c, Cur(s2).(blockQueue := Some(WriteQ(t))), c);
    TouchesTrans(s1, s2, s4, c, {}, {}, {});
    var s5 := SetQ(s4, WriteQ(t), Q(s2, WriteQ(t)) + [c]);
    SetQTouches(s4, WriteQ(t), Q(s2, WriteQ(t)) + [c], c);
    TouchesTrans(s1, s4, s5, c, {}, {}, {});
    ScheduleTouches(s5, c);
    TouchesTrans(s1, s5, Schedule(s5), c, {}, {}, {});
  }

  // ---------- processes ----------

  lemma TouchesThenSchedule(s: Kernel, s1: Kernel, ids: set<int>)
    requires Touches(s, s1, s.current, ids)
    ensures Touches(s, Schedule(s1), s.current, ids)
  {
    hide Touches, Schedule;
    ScheduleTouches(s1, s.current);
    TouchesTrans(s, s1, Schedule(s1), s.current, ids, {}, ids);
  }

  lemma DelayTouches(s: Kernel, ticks: int)
    ensures Touches(s, Delay(s, ticks), s.current, {})
  {
    hide Touches, Schedule, Finish;
    ReturnTouches(s, ERROR, {});
    ReturnTouches(s, SUCCESS, {});
    if ticks > 0 {
      var pcb := Cur(s).(delayUntil := s.clock + ticks, state := Blocked, cont := InDelay).Returning(SUCCESS);
      SetProcTouches(s, s.current, pcb, s.current);
      TouchesThenSchedule(s, SetCur(s, pcb), {});
    }
  }

  /** The locks a process owns. */
  function OwnedLocks(s: Kernel, p: Pid): set<int> {
    set i: int | 0 <= i < |s.objects| && s.objects[i] == Lock(Some(p))
  }

  lemma ExitTouches(s: Kernel, status: int)
    requires forall x :: x in Cur(s).kin.children ==> x in s.procs
    ensures Touches(s, Exit(s, status), s.current, OwnedLocks(s, s.current))
  {
    hide Touches, Orphan, ReleaseAll, Schedule, MakeReady;
    var p, ids := s.current, OwnedLocks(s, s.current);
    var s0 := Orphan(s, p);
    OrphanTouches(s, p);
    TouchedObjects(s, s0, p, {});
    ReleaseAllTouches(s0, p, 0, ids);
    var s1 := ReleaseAll(s0, p, 0);
    TouchesTrans(s, s0, s1, p, {}, ids, ids);
    var pcb := Proc(s1, p).(kin := Proc(s1, p).kin.(exitStatus := status), state := Zombie);
    var s2 := SetProc(s1, p, pcb);
    SetProcTouches(s1, p, pcb, p);
    TouchesTrans(s, s1, s2, p, ids, {}, ids);
    TouchesThenSchedule(s, s2, ids);
    if Proc(s2, p).kin.parent.Some? {
      var q := Proc(s2, p).kin.parent.value;
      MakeReadyTouches(s2, q, Proc(s2, q).(waitingForChild := false), p);
      var s3 := MakeReady(s2, q, Proc(s2, q).(waitingForChild := false));
      TouchesTrans(s, s2, s3, p, ids, {}, ids);
      TouchesThenSchedule(s, s3, ids);
    }
  }

  /** Once the child is there, the fork touches nobody but its caller. */
  lemma ForkedTouches(s: Kernel, c: Pid)
    requires c !in s.procs && s.current != s.idle
    ensures Touches(SetProc(s, c, BlankPcb.WithParent(Some(s.current))), Fork(s, c, true, true), s.current, {})
  {
    hide Touches, Finish, MakeReady;
    var s1 := SetProc(s, c, BlankPcb.WithParent(Some(s.current)));
    var s2 := SetCur(s1, Cur(s1).WithChildren(Cur(s1).kin.children + [c]));
    var s3 := MakeReady(s2, c, Proc(s2, c));
    SetProcTouches(s1, s.current, Cur(s1).WithChildren(Cur(s1).kin.children + [c]), s.current);
    MakeReadyTouches(s2, c, Proc(s2, c), s.current);
    TouchesTrans(s1, s2, s3, s.current, {}, {}, {});
    FinishTouches(s1, s3, Cur(s3), c, {});
  }

  lemma WaitBlocks(s: Kernel, wantStatus: bool)
    requires FirstZombie(s, Cur(s).kin.children).None?
    ensures Touches(s, Wait(s, wantStatus), s.current, {})
  {
    hide Touches, Finish, Schedule, FirstZombie;
    ReturnTouches(s, ERROR, {});
    var pcb := Cur(s).(waitingForChild := true, state := Blocked, cont := InWait(wantStatus));
    SetProcTouches(s, s.current, pcb, s.current);
    TouchesThenSchedule(s, SetCur(s, pcb), {});
  }
}
