/** When calls fail: over every call and every resumption, exactly when the caller is answered ERROR. */
module AnswerTheorems {
  import opened Common
  import opened KernelState
  import opened KernelSteps
  import opened KernelInvariants
  import opened RunTheorems
  import opened ObjectTheorems
  import opened Outcomes
  import opened IpcOutcomes
  import opened TtyOutcomes
  import opened LifeOutcomes

  /** A negative length, or a null buffer for some bytes. */
  predicate BadBuffer(len: int, nullBuf: bool) {
    len < 0 || (nullBuf && len > 0)
  }

  predicate Idle(s: Kernel) {
    s.current == s.idle
  }

  /** No slot of the table of objects is free. */
  predicate TableFull(s: Kernel) {
    forall i :: 0 <= i < |s.objects| ==> !s.objects[i].Free?
  }

  predicate Childless(s: Kernel) {
    Cur(s).kin.children == []
  }

  /** The step is a call or the resumption of one, and not an exit. */
  predicate Calls(e: Event) {
    !e.EvExit? && !e.EvClock? && !e.EvReceive? && !e.EvTransmit?
  }

  /** The call, or the call that resumes, is one the kernel refuses or cannot carry out. */
  predicate Fails(s: Kernel, e: Event)
    requires Calls(e)
  {
    match e
    case EvFork(_, made, cloned) => Idle(s) || !made || !cloned
    case EvWait(_) => Idle(s) || Childless(s)
    case EvDelay(n) => n < 0 || (n > 0 && Idle(s))
    case EvTtyRead(t, len, nullBuf) => !(0 <= t < |s.terms|) || BadBuffer(len, nullBuf) || (len > 0 && Idle(s))
    case EvTtyWrite(t, mem, len, oom) => !(0 <= t < |s.terms|) || BadBuffer(len, mem.None?) || (len > 0 && (Idle(s) || oom))
    case EvPipeInit(nullPtr, oom) => nullPtr || TableFull(s) || oom
    case EvPipeRead(id, len, nullBuf) => BadBuffer(len, nullBuf) || (len > 0 && (Idle(s) || !Obj(s, id).Pipe?))
    case EvPipeWrite(id, mem, len, oom) =>
      BadBuffer(len, mem.None?) || (len > 0 && (!Obj(s, id).Pipe? || (|Obj(s, id).buf| + len > Obj(s, id).cap && oom)))
    case EvLockInit(nullPtr) => nullPtr || TableFull(s)
    case EvAcquire(id) => Idle(s) || !Obj(s, id).Lock? || Obj(s, id) == Lock(Some(s.current))
    case EvRelease(id) => Obj(s, id) != Lock(Some(s.current))
    case EvCvarInit(nullPtr) => nullPtr || TableFull(s)
    case EvSignal(id) => !Obj(s, id).Cvar?
    case EvBroadcast(id) => !Obj(s, id).Cvar?
    case EvCvarWait(v, l) => !Obj(s, v).Cvar? || Obj(s, l) != Lock(Some(s.current))
    case EvReclaim(id) => Obj(s, id).Free? || (Obj(s, id).Lock? && Obj(s, id) != Lock(None)) || Q(s, ObjectQ(id)) != []
    case EvResume =>
      match Cur(s).cont
      case InCvarWait(v, l) => !Obj(s, v).Cvar? || !Obj(s, l).Lock? || Obj(s, l) == Lock(Some(s.current))
      case InPipeRead(id, _) => !Obj(s, id).Pipe?
      case InWait(_) => Childless(s)
      case _ => false
  }

  /** What the lemma below says of one step. */
  ghost predicate FailsRight(s: Kernel, e: Event)
    requires Legal(s, e) && Calls(e)
  {
    Answer(s, Step(s, e)) == Some(ERROR) <==> Fails(s, e)
  }

  lemma LockCallFails(s: Kernel, e: Event)
    requires Reached(s) && Legal(s, e) && (e.EvAcquire? || e.EvRelease? || e.EvReclaim?)
    ensures FailsRight(s, e)
  {
    hide Reached, Step, Legal;
    match e {
      case EvAcquire(id) => AcquireOutcome(s, id);
      case EvRelease(id) => ReleaseOutcome(s, id);
      case EvReclaim(id) => ReclaimOutcome(s, id);
    }
  }

  lemma CvarCallFails(s: Kernel, e: Event)
    requires Reached(s) && Legal(s, e) && (e.EvSignal? || e.EvBroadcast? || e.EvCvarWait?)
    ensures FailsRight(s, e)
  {
    hide Reached, Step, Legal;
    match e {
      case EvSignal(v) => SignalOutcome(s, v);
      case EvBroadcast(v) => BroadcastOutcome(s, v);
      case EvCvarWait(v, l) => CvarWaitOutcome(s, v, l);
    }
  }

  lemma PipeCallFails(s: Kernel, e: Event)
    requires Reached(s) && Legal(s, e) && (e.EvPipeRead? || e.EvPipeWrite?)
    ensures FailsRight(s, e)
  {
    hide Reached, Step, Doubled;
    match e {
      case EvPipeRead(id, len, nullBuf) => PipeReadOutcome(s, id, len, nullBuf);
      case EvPipeWrite(id, mem, len, oom) => PipeWriteOutcome(s, id, mem, len, oom);
    }
  }

  lemma InitFails(s: Kernel, e: Event)
    requires Reached(s) && Legal(s, e) && (e.EvLockInit? || e.EvCvarInit? || e.EvPipeInit?)
    ensures FailsRight(s, e)
  {
    hide Reached, Step, Legal;
    InitOutcome(s, e);
  }

  lemma TtyCallFails(s: Kernel, e: Event)
    requires Reached(s) && Legal(s, e) && (e.EvTtyRead? || e.EvTtyWrite?)
    ensures FailsRight(s, e)
  {
    hide Reached, Step;
    match e {
      case EvTtyRead(t, len, nullBuf) => TtyReadOutcome(s, t, len, nullBuf);
      case EvTtyWrite(t, mem, len, oom) => TtyWriteOutcome(s, t, mem, len, oom);
    }
  }

  lemma WaitingFails(s: Kernel, want: bool, s': Kernel)
    requires s.current in s.procs && Waits(s, want, s')
    ensures Answer(s, s') == Some(ERROR) <==> Idle(s) || Childless(s)
  {
    var children := s.procs[s.current].kin.children;
    if !Idle(s) && !Childless(s) && exists i :: FirstDead(s, children, i) {
      var i :| FirstDead(s, children, i) && Reaps(s, i, want, s');
    }
  }

  lemma LifeCallFails(s: Kernel, e: Event)
    requires Reached(s) && Legal(s, e) && (e.EvFork? || e.EvWait? || e.EvDelay?)
    ensures FailsRight(s, e)
  {
    hide Reached, Step, Waits;
    match e {
      case EvFork(c, made, cloned) => ForkOutcome(s, c, made, cloned);
      case EvWait(want) =>
        WaitOutcome(s, want);
        WaitingFails(s, want, Step(s, e));
      case EvDelay(n) => DelayOutcome(s, n);
    }
  }

  lemma ResumedIpcFails(s: Kernel)
    requires Reached(s) && Legal(s, EvResume) && (Cur(s).cont.InAcquire? || Cur(s).cont.InCvarWait? || Cur(s).cont.InPipeRead?)
    ensures FailsRight(s, EvResume)
  {
    hide Reached, Step, Inv, PlaceInv, Restful;
    match Cur(s).cont {
      case InAcquire(l) => AcquireResumes(s, l);
      case InCvarWait(v, l) =>
        ReachedRests(s);
        ResumerNotIdle(s);
        CvarWaitResumes(s, v, l);
      case InPipeRead(id, len) => PipeReadResumes(s, id, len);
    }
  }

  lemma ResumedFails(s: Kernel)
    requires Reached(s) && Legal(s, EvResume) && !(Cur(s).cont.InAcquire? || Cur(s).cont.InCvarWait? || Cur(s).cont.InPipeRead?)
    ensures FailsRight(s, EvResume)
  {
    hide Reached, Step, Inv, PlaceInv, Restful, Waits;
    match Cur(s).cont {
      case InTtyRead => TtyReadResumes(s);
      case InTtyWrite => TtyWriteResumes(s);
      case InDelay => DelayResumes(s);
      case InWait(want) =>
        ReachedRests(s);
        ResumerNotIdle(s);
        WaitResumes(s, want);
        WaitingFails(s, want, Step(s, EvResume));
    }
  }

  /** In every reached state, a call or a call that resumes is answered ERROR exactly if Fails says so. */
  lemma FailsIff(s: Kernel, e: Event)
    requires Reached(s) && Legal(s, e) && Calls(e)
    ensures Answer(s, Step(s, e)) == Some(ERROR) <==> Fails(s, e)
  {
    hide Reached, Legal, Step, Answer, Fails;
    match e {
      case EvAcquire(_) => LockCallFails(s, e);
      case EvRelease(_) => LockCallFails(s, e);
      case EvReclaim(_) => LockCallFails(s, e);
      case EvSignal(_) => CvarCallFails(s, e);
      case EvBroadcast(_) => CvarCallFails(s, e);
      case EvCvarWait(_, _) => CvarCallFails(s, e);
      case EvPipeRead(_, _, _) => PipeCallFails(s, e);
      case EvPipeWrite(_, _, _, _) => PipeCallFails(s, e);
      case EvLockInit(_) => InitFails(s, e);
      case EvCvarInit(_) => InitFails(s, e);
      case EvPipeInit(_, _) => InitFails(s, e);
      case EvTtyRead(_, _, _) => TtyCallFails(s, e);
      case EvTtyWrite(_, _, _, _) => TtyCallFails(s, e);
      case EvFork(_, _, _) => LifeCallFails(s, e);
      case EvWait(_) => LifeCallFails(s, e);
      case EvDelay(_) => LifeCallFails(s, e);
      case EvResume =>
        if Cur(s).cont.InAcquire? || Cur(s).cont.InCvarWait? || Cur(s).cont.InPipeRead? {
          ResumedIpcFails(s);
        } else {
          ResumedFails(s);
        }
    }
  }
}
