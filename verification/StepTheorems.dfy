/** What any step of the kernel does to anything but the process that takes it. */
module StepTheorems {
  import opened Common
  import opened KernelState
  import opened KernelSteps
  import opened KernelInvariants
  import IpcProofs
  import opened LifeProofs
  import opened StepFrames
  import RunTheorems

  /** The objects a step is about. */
  function Named(s: Kernel, e: Event): set<int> {
    match e
    case EvResume =>
      (match Cur(s).cont
       case InAcquire(l) => {l}
       case InCvarWait(_, l) => {l}
       case InPipeRead(id, _) => {id}
       case _ => {})
    case EvExit(_) => OwnedLocks(s, s.current)
    case EvPipeInit(_, _) => {FirstFree(s.objects)}
    case EvLockInit(_) => {FirstFree(s.objects)}
    case EvCvarInit(_) => {FirstFree(s.objects)}
    case EvPipeRead(id, _, _) => {id}
    case EvPipeWrite(id, _, _, _) => {id}
    case EvAcquire(id) => {id}
    case EvRelease(id) => {id}
    case EvSignal(id) => {id}
    case EvBroadcast(id) => {id}
    case EvCvarWait(c, l) => {c, l}
    case EvReclaim(id) => {id}
    case _ => {}
  }

  /** Nobody but process c can have lost or got a line that was handed over. */
  ghost predicate LinesKept(s: Kernel, s': Kernel, c: Pid) {
    && (forall p :: p in s.procs && p in s'.procs && p != c ==> s'.procs[p].io.readLine == s.procs[p].io.readLine)
    && (forall p :: (p == c || p !in s.procs) && Proc(s, p).io.readLine.None? ==> Proc(s', p).io.readLine.None?)
  }

  /** Nobody comes but the child of a fork, and nobody but the caller becomes a zombie. */
  ghost predicate PidsKept(s: Kernel, e: Event, s': Kernel) {
    && (s.current in s.procs ==> s.current in s'.procs)
    && (forall p :: p in s'.procs && p !in s.procs ==> e.EvFork? && p == e.child)
    && (forall p :: p in s.procs && p in s'.procs && p != s.current ==> (s'.procs[p].state.Zombie? <==> s.procs[p].state.Zombie?))
  }

  /**
   * Another process keeps its continuation, its locks, its exit status and its pending request, and a delay
   * that has not come to its end. Only zombies disappear. An object the step does not name stays as it is, and
   * the accepted output of a terminal grows by the bytes of an accepted write alone.
   */
  ghost predicate Isolated(s: Kernel, e: Event, s': Kernel)
    requires Legal(s, e)
  {
    && s'.clock == s.clock + (if e.EvClock? then 1 else 0)
    && (forall p :: p in s.procs && p != s.current ==>
          if p in s'.procs then PartKept(s.procs[p], s'.procs[p], s'.clock)
          else s.procs[p].state.Zombie? && (e.EvWait? || (e.EvResume? && Cur(s).cont.InWait?)))
    && (forall i: nat :: i !in Named(s, e) ==> ObjectKept(s, s', i))
    && |s'.objects| == |s.objects| && |s'.terms| == |s.terms|
    && (forall t: nat :: Term(s', t).accepted == Term(s, t).accepted + AcceptedBy(s, e, t))
    && (!e.EvReceive? ==> LinesKept(s, s', s.current)) && PidsKept(s, e, s')
  }

  /** The caller and everybody that is queued, or the caller's child, exists. */
  ghost predicate Living(s: Kernel) {
    s.current in s.procs && (forall c :: Alive(s, c)) && forall x :: x in Cur(s).kin.children ==> x in s.procs
  }

  lemma LivingOf(s: Kernel)
    requires Inv(s)
    ensures Living(s)
  {
    hide LockInv, PipeInv, TtyInv, ParksAgree, Unique, WritersAgree, ZombiesRight, ParentsRight;
    forall q, p | q in s.queues && p in s.queues[q] ensures p in s.procs {
      assert p in Q(s, q);
    }
    forall x | x in Cur(s).kin.children ensures x in s.procs {
      assert HasChild(s, s.current, x);
    }
  }

  lemma NoAccept(s: Kernel, e: Event)
    requires Legal(s, e) && !e.EvTtyWrite?
    ensures forall t: nat :: AcceptedBy(s, e, t) == []
  {
  }

  lemma TouchedIsolated(s: Kernel, e: Event, s': Kernel)
    requires Legal(s, e) && Touches(s, s', s.current, Named(s, e)) && !e.EvClock? && Living(s)
    requires forall t: nat :: AcceptedBy(s, e, t) == []
    ensures Isolated(s, e, s')
  {
    hide Named, AcceptedBy, Legal, PartKept, ObjectKept;
    forall p | p in s.procs && p != s.current
      ensures p in s'.procs && PartKept(s.procs[p], s'.procs[p], s'.clock) && s'.procs[p].io.readLine == s.procs[p].io.readLine
    {
      assert WhollyKept(s.procs[p], s'.procs[p], s.clock);
    }
    forall t: nat ensures Term(s', t).accepted == Term(s, t).accepted + AcceptedBy(s, e, t) {
      assert Term(s, t).accepted + [] == Term(s, t).accepted;
    }
  }

  lemma ReapIsolated(s: Kernel, e: Event, c: Pid, want: bool)
    requires Legal(s, e) && (e.EvWait? || (e.EvResume? && Cur(s).cont.InWait?)) && !e.EvClock?
    requires c in s.procs && c != s.current && s.procs[c].state.Zombie? && Living(s)
    ensures Isolated(s, e, Reaped(s, c, want))
  {
    NoAccept(s, e);
    hide Named, AcceptedBy, Legal;
    var s' := Reaped(s, c, want);
    forall i: nat ensures ObjectKept(s, s', i) {
      assert s'.objects == s.objects && s'.queues == s.queues;
    }
    forall t: nat ensures Term(s', t).accepted == Term(s, t).accepted + AcceptedBy(s, e, t) {
      assert Term(s, t).accepted + [] == Term(s, t).accepted;
    }
  }

  lemma WaitIsolated(s: Kernel, e: Event, want: bool)
    requires Inv(s) && Legal(s, e) && (Cur(s).cont.ToUser? || Cur(s).cont.InWait?)
    requires e.EvWait? || (e.EvResume? && Cur(s).cont.InWait?)
    requires Named(s, e) == {}
    ensures Isolated(s, e, Wait(s, want))
  {
    hide Inv, Legal, Isolated, Touches, FirstZombie, Named, Reaped, AcceptedBy, Wait, Living;
    LivingOf(s);
    NoAccept(s, e);
    match FirstZombie(s, Cur(s).kin.children) {
      case None =>
        WaitBlocks(s, want);
        TouchedIsolated(s, e, Wait(s, want));
      case Some(c) =>
        if s.current == s.idle {
          WaitIdle(s, want);
          ReturnTouches(s, ERROR, {});
          TouchedIsolated(s, e, Wait(s, want));
        } else {
          ReapFacts(s, c);
          WaitReapIs(s, c, want);
          ReapIsolated(s, e, c, want);
        }
    }
  }

  lemma WaitIdle(s: Kernel, want: bool)
    requires s.current == s.idle
    ensures Wait(s, want) == Return(s, ERROR)
  {
  }

  lemma ReapFacts(s: Kernel, c: Pid)
    requires Inv(s) && FirstZombie(s, Cur(s).kin.children) == Some(c)
    ensures c in s.procs && s.procs[c].kin == Kin(Some(s.current), [], s.procs[c].kin.exitStatus) && c != s.current
    ensures c !in s.ready && s.procs[c].blockQueue.None? && s.procs[c].state.Zombie? && s.current in s.procs
  {
    hide Inv, FirstZombie, Whole, IpcProofs.Before;
    RunTheorems.InvParts(s);
    NoZombie(s, Cur(s).kin.children);
    WholeFree(s);
    ZombieChild(s, c);
  }

  lemma ResumeWaitIs(s: Kernel, want: bool)
    requires Inv(s)
    ensures ResumeWait(s, want) == Wait(s, want)
  {
    hide Inv, Wait, Whole;
    RunTheorems.InvParts(s);
    WholeFree(s);
    assert Cur(s).(waitingForChild := false) == Cur(s);
    assert s.procs[s.current := Cur(s)] == s.procs;
  }

  lemma ForkIsolated(s: Kernel, e: Event)
    requires Inv(s) && Legal(s, e) && e.EvFork?
    ensures Isolated(s, e, Step(s, e))
  {
    hide Inv, Isolated, Touches, AcceptedBy, Fork, Whole, Finish, Living;
    LivingOf(s);
    RunTheorems.InvParts(s);
    NoAccept(s, e);
    NewPidUnused(s, e.child);
    WholeFree(s);
    if s.current == s.idle || !e.made {
      ForkFails(s, e.child, e.made, e.cloned);
      ReturnTouches(s, ERROR, {});
      TouchedIsolated(s, e, Step(s, e));
    } else if !e.cloned {
      ForkUndone(s, e.child);
      ReturnTouches(s, ERROR, {});
      TouchedIsolated(s, e, Step(s, e));
    } else {
      ForkedTouches(s, e.child);
      ForkedIsolated(s, e, Step(s, e));
    }
  }

  /** Once the child is there, or the line handed over, nobody comes or becomes a zombie but the caller. */
  lemma PidsThrough(s: Kernel, e: Event, s1: Kernel, s': Kernel)
    requires Living(s) && Touches(s1, s', s.current, {}) && s1.ready == s.ready && s1.idle == s.idle
    requires s.procs.Keys <= s1.procs.Keys <= s.procs.Keys + (if e.EvFork? then {e.child} else {})
    requires forall p :: p in s.procs ==> (s1.procs[p].state.Zombie? <==> s.procs[p].state.Zombie?)
    requires forall q, p :: q in s1.queues && p in s1.queues[q] ==> q in s.queues && p in s.queues[q]
    ensures PidsKept(s, e, s')
  {
    hide OthersKept, ObjectKept;
    assert Alive(s, s.current);
    assert Alive(s1, s.current);
  }

  lemma ForkedIsolated(s: Kernel, e: Event, s': Kernel)
    requires Legal(s, e) && e.EvFork? && Living(s) && forall t: nat :: AcceptedBy(s, e, t) == []
    requires Touches(SetProc(s, e.child, BlankPcb.WithParent(Some(s.current))), s', s.current, {})
    ensures Isolated(s, e, s')
  {
    hide AcceptedBy, PartKept, Living, PidsKept, Alive, SamePids;
    var s1 := SetProc(s, e.child, BlankPcb.WithParent(Some(s.current)));
    PidsThrough(s, e, s1, s');
    forall p | p in s.procs && p != s.current
      ensures p in s'.procs && PartKept(s.procs[p], s'.procs[p], s'.clock) && s'.procs[p].io.readLine == s.procs[p].io.readLine
    {
      assert WhollyKept(s1.procs[p], s'.procs[p], s.clock);
    }
    forall i: nat ensures ObjectKept(s, s', i) {
      assert ObjectKept(s1, s', i);
    }
    forall t: nat ensures Term(s', t).accepted == Term(s, t).accepted + AcceptedBy(s, e, t) {
      assert Term(s1, t).accepted + [] == Term(s, t).accepted;
    }
  }

  lemma ClockIsolated(s: Kernel)
    requires Legal(s, EvClock) && Living(s)
    ensures Isolated(s, EvClock, Clock(s))
  {
    hide Schedule, AcceptedBy, Touches, Isolated, Named;
    NoAccept(s, EvClock);
    var s1 := s.(clock := s.clock + 1);
    ScheduleTouches(s1, s.current);
    TickIsolated(s, s1, Clock(s));
  }

  lemma TickIsolated(s: Kernel, s1: Kernel, s': Kernel)
    requires Legal(s, EvClock) && s1 == s.(clock := s.clock + 1) && Touches(s1, s', s.current, {}) && Living(s)
    requires forall t: nat :: AcceptedBy(s, EvClock, t) == []
    ensures Isolated(s, EvClock, s')
  {
    hide AcceptedBy, PartKept, Living, PidsKept, Alive, SamePids;
    PidsThrough(s, EvClock, s1, s');
    assert forall p :: Proc(s1, p) == Proc(s, p);
    forall p | p in s.procs && p != s.current
      ensures p in s'.procs && PartKept(s.procs[p], s'.procs[p], s'.clock) && s'.procs[p].io.readLine == s.procs[p].io.readLine
    {
      assert WhollyKept(s1.procs[p], s'.procs[p], s1.clock);
    }
    forall i: nat ensures ObjectKept(s, s', i) {
      assert ObjectKept(s1, s', i);
    }
    forall t: nat ensures Term(s', t).accepted == Term(s, t).accepted + AcceptedBy(s, EvClock, t) {
      assert Term(s1, t).accepted + [] == Term(s, t).accepted;
    }
  }

  lemma WriteIsolated(s: Kernel, e: Event)
    requires Legal(s, e) && e.EvTtyWrite? && Living(s)
    ensures Isolated(s, e, Step(s, e))
  {
    var t, mem, len := e.tty, e.mem, e.len;
    var s' := Step(s, e);
    if 0 <= t < |s.terms| && mem.Some? && len > 0 && s.current != s.idle && !e.oom {
      TtyWriteTouches(s, t, mem, len);
      AcceptedAdds(s, e, mem.value[..len], s');
    } else {
      hide Touches, Isolated, Finish, Living;
      ReturnTouches(s, ERROR, {});
      ReturnTouches(s, 0, {});
      TouchedIsolated(s, e, s');
    }
  }

  lemma AcceptedAdds(s: Kernel, e: Event, data: seq<Byte>, s': Kernel)
    requires Legal(s, e) && e.EvTtyWrite? && 0 <= e.tty < |s.terms| && AcceptedBy(s, e, e.tty) == data
    requires Touches(WithAccepted(s, e.tty, data), s', s.current, {}) && Living(s)
    ensures Isolated(s, e, s')
  {
    hide PartKept, Living, PidsKept, Alive, SamePids;
    var s1 := WithAccepted(s, e.tty, data);
    PidsThrough(s, e, s1, s');
    forall i: nat ensures ObjectKept(s, s', i) {
      assert ObjectKept(s1, s', i);
    }
    forall t: nat ensures Term(s', t).accepted == Term(s, t).accepted + AcceptedBy(s, e, t) {
      assert Term(s1, t).accepted == Term(s, t).accepted + AcceptedBy(s, e, t);
    }
  }

  lemma ResumeIsolated(s: Kernel)
    requires Inv(s) && Legal(s, EvResume)
    ensures Isolated(s, EvResume, Step(s, EvResume))
  {
    hide Inv, Touches, Isolated, Return, AcceptedBy, TtyReadLoop, Wait, ResumeWait, ResumeAcquire, ResumeCvarWait,
      ResumePipeRead, Finish, Living;
    LivingOf(s);
    NoAccept(s, EvResume);
    match Cur(s).cont {
      case InAcquire(l) => ResumeAcquireTouches(s, l); TouchedIsolated(s, EvResume, Resume(s));
      case InCvarWait(c, l) => ResumeCvarWaitTouches(s, c, l); TouchedIsolated(s, EvResume, Resume(s));
      case InPipeRead(id, len) => ResumePipeReadTouches(s, id, len); TouchedIsolated(s, EvResume, Resume(s));
      case InTtyRead => TtyReadLoopTouches(s, Cur(s).ttyId); TouchedIsolated(s, EvResume, Resume(s));
      case InTtyWrite =>
        TouchesRefl(s, s.current, {});
        FinishTouches(s, s, Cur(s).(io := Cur(s).io.(writeBuf := [], writeOffset := 0, writeChunks := 0)), |Cur(s).io.writeBuf|, {});
        TouchedIsolated(s, EvResume, Resume(s));
      case InDelay => ReturnTouches(s, SUCCESS, {}); TouchedIsolated(s, EvResume, Resume(s));
      case InWait(want) => ResumeWaitIs(s, want); WaitIsolated(s, EvResume, want);
    }
  }

  lemma CallIsolated(s: Kernel, e: Event)
    requires Legal(s, e) && Living(s)
    requires !e.EvResume? && !e.EvWait? && !e.EvFork? && !e.EvClock? && !e.EvTtyWrite? && !e.EvReceive?
    ensures Isolated(s, e, Step(s, e))
  {
    hide Touches, Isolated, AcceptedBy, InitObject, PipeRead, PipeWrite, Acquire, Release, Signal, Broadcast,
      CvarWait, Reclaim,
      TtyRead, TrapReceive, TrapTransmit, Delay, Exit, OwnedLocks, FirstFree;
    NoAccept(s, e);
    match e {
      case EvExit(status) => ExitTouches(s, status);
      case EvDelay(n) => DelayTouches(s, n);
      case EvTtyRead(t, len, nullBuf) => TtyReadTouches(s, t, len, nullBuf);
      case EvPipeInit(nullPtr, oom) => InitObjectTouches(s, Pipe([], PIPE_BUFFER_LEN, [], []), nullPtr, oom);
      case EvPipeRead(id, len, nullBuf) => PipeReadTouches(s, id, len, nullBuf);
      case EvPipeWrite(id, mem, len, oom) => PipeWriteTouches(s, id, mem, len, oom);
      case EvLockInit(nullPtr) => InitObjectTouches(s, Lock(None), nullPtr, false);
      case EvAcquire(id) => AcquireTouches(s, id);
      case EvRelease(id) => ReleaseTouches(s, id);
      case EvCvarInit(nullPtr) => InitObjectTouches(s, Cvar, nullPtr, false);
      case EvSignal(id) => SignalTouches(s, id);
      case EvBroadcast(id) => SignalTouches(s, id);
      case EvCvarWait(c, l) => CvarWaitTouches(s, c, l);
      case EvReclaim(id) => ReclaimTouches(s, id);
      case EvTransmit(t) => TrapTransmitTouches(s, t, s.current);
    }
    TouchedIsolated(s, e, Step(s, e));
  }

  lemma ReceiveIsolated(s: Kernel, e: Event)
    requires Inv(s) && Legal(s, e) && e.EvReceive?
    ensures Isolated(s, e, Step(s, e))
  {
    hide Inv, Touches, Isolated, AcceptedBy, TrapReceive, Living;
    LivingOf(s);
    NoAccept(s, e);
    var s' := Step(s, e);
    if 0 <= e.tty < |s.terms| && e.ok {
      FirstReader(s, e.tty);
      TrapReceiveTouches(s, e.tty, e.data, s.current);
      LineHanded(s, e, s');
    } else {
      StepIgnored(s, e);
      TouchesRefl(s, s.current, {});
      TouchedIsolated(s, e, s');
    }
  }

  lemma StepIgnored(s: Kernel, e: Event)
    requires Legal(s, e) && e.EvReceive? && !(0 <= e.tty < |s.terms| && e.ok)
    ensures Step(s, e) == s
  {
  }

  lemma FirstReader(s: Kernel, t: nat)
    requires Inv(s)
    ensures Q(s, ReadQ(t)) != [] ==> Q(s, ReadQ(t))[0] in s.procs
  {
    hide LockInv, PipeInv, FamilyInv, TtyInv, ParksAgree;
    HeadIn(Q(s, ReadQ(t)));
  }

  lemma LineHanded(s: Kernel, e: Event, s': Kernel)
    requires Legal(s, e) && e.EvReceive? && 0 <= e.tty < |s.terms| && (Q(s, ReadQ(e.tty)) != [] ==> Q(s, ReadQ(e.tty))[0] in s.procs)
    requires Touches(WithLine(s, e.tty, e.data), s', s.current, {}) && Living(s) && forall t: nat :: AcceptedBy(s, e, t) == []
    ensures Isolated(s, e, s')
  {
    hide AcceptedBy, Living, PidsKept, Alive, SamePids;
    var s1 := WithLine(s, e.tty, e.data);
    PidsThrough(s, e, s1, s');
    forall p | p in s.procs && p != s.current ensures p in s'.procs && PartKept(s.procs[p], s'.procs[p], s'.clock) {
      assert WhollyKept(s1.procs[p], s'.procs[p], s1.clock);
    }
    forall i: nat ensures ObjectKept(s, s', i) {
      assert ObjectKept(s1, s', i);
    }
    forall t: nat ensures Term(s', t).accepted == Term(s, t).accepted + AcceptedBy(s, e, t) {
      assert Term(s1, t).accepted + [] == Term(s, t).accepted;
    }
  }

  /** Every step is isolated. */
  lemma StepIsolated(s: Kernel, e: Event)
    requires Inv(s) && Legal(s, e)
    ensures Isolated(s, e, Step(s, e))
  {
    hide Inv, Isolated, Clock, Wait, Living;
    LivingOf(s);
    match e {
      case EvResume => ResumeIsolated(s);
      case EvWait(want) => WaitIsolated(s, e, want);
      case EvFork(_, _, _) => ForkIsolated(s, e);
      case EvClock => ClockIsolated(s);
      case EvTtyWrite(_, _, _, _) => WriteIsolated(s, e);
      case EvReceive(_, _, _) => ReceiveIsolated(s, e);
      case _ => CallIsolated(s, e);
    }
  }
}
