/** The invariant holds in every state the kernel can reach, and what that says about whole runs. */
module RunTheorems {
  import opened Common
  import opened KernelState
  import opened KernelSteps
  import opened KernelInvariants
  import opened IpcProofs
  import opened LifeProofs
  import ExitProofs
  import opened TtyProofs
  import opened TtyCallProofs

  // ---------- one step ----------

  /** The step calls ProcessSchedule: a clock trap, an exit, or a call that blocks. */
  predicate Reschedules(s: Kernel, e: Event)
    requires Legal(s, e)
  {
    e.EvClock? || e.EvExit? || Blocks(s, Step(s, e))
  }

  /** A clock trap finds the running process still marked ready, as ProcessSchedule left it when it picked itself. */
  predicate SelfPicked(s: Kernel, e: Event) {
    e.EvClock? && s.current != s.idle && Cur(s).state.Ready?
  }

  /** What a step does to the ready queue and to the processes nothing can find. */
  ghost predicate Stepped(s: Kernel, e: Event, s': Kernel, sched: bool) {
    && s'.idle == s.idle && s'.init == s.init
    && (if sched then s.ready != [] ==> s'.current == s.ready[0] && s.ready[1..] <= s'.ready
        else s'.current == s.current && s.ready <= s'.ready)
    && (forall p :: Lost(s', p) <==> Lost(s, p) || (SelfPicked(s, e) && p == s.current))
  }

  lemma InvParts(s: Kernel)
    requires Inv(s)
    ensures Before(s) && Whole(s) && WholeTty(s) && PlaceInv(s) && LockInv(s) && PipeInv(s) && FamilyInv(s) && TtyInv(s)
  {
    hide PlaceInv, LockInv, PipeInv, FamilyInv, TtyInv;
  }

  lemma InvOf(s: Kernel)
    requires PlaceInv(s) && TtyStep(s)
    ensures Inv(s)
  {
    hide PlaceInv, LockInv, PipeInv, FamilyInv, TtyInv;
  }

  lemma WentStepped(s: Kernel, e: Event, s': Kernel, sched: bool)
    requires Went(s, s', sched) && !e.EvClock?
    ensures PlaceInv(s') && Stepped(s, e, s', sched)
  {
    hide PlaceInv, Lost;
  }

  lemma IpcStep(s: Kernel, s': Kernel)
    requires Inv(s) && IpcKept(s, s')
    ensures TtyStep(s') && LifeKept(s, s')
  {
    hide PlaceInv, LockInv, PipeInv, FamilyInv, TtyInv, IpcKept, LifeKept;
    InvParts(s);
    IpcIsLife(s, s');
    LifeIsTty(s, s');
  }

  lemma LifeStep(s: Kernel, s': Kernel)
    requires Inv(s) && LifeKept(s, s')
    ensures TtyStep(s')
  {
    hide PlaceInv, LockInv, PipeInv, FamilyInv, TtyInv, LifeKept;
    InvParts(s);
    LifeIsTty(s, s');
  }

  lemma ClockStep(s: Kernel)
    requires Inv(s)
    ensures Inv(Clock(s)) && Stepped(s, EvClock, Clock(s), true) && LifeKept(s, Clock(s))
  {
    hide Inv, PlaceInv, LockInv, PipeInv, FamilyInv, TtyInv, LifeKept, Whole, Lost, TtyStep, Clock, Before, WholeTty;
    InvParts(s);
    ClockKept(s);
    LifeStep(s, Clock(s));
    InvOf(Clock(s));
  }

  lemma IpcCallKept(s: Kernel, e: Event)
    requires Inv(s) && Legal(s, e)
    requires e.EvPipeInit? || e.EvPipeRead? || e.EvPipeWrite? || e.EvLockInit? || e.EvAcquire? || e.EvRelease?
          || e.EvCvarInit? || e.EvSignal? || e.EvBroadcast? || e.EvCvarWait? || e.EvReclaim?
    ensures var s' := Step(s, e); Went(s, s', Blocks(s, s')) && TtyStep(s') && LifeKept(s, s')
  {
    hide Inv, PlaceInv, LockInv, PipeInv, FamilyInv, TtyInv, IpcKept, LifeKept, Before, Went, TtyStep, Blocks,
      InitObject, PipeRead, PipeWrite, Acquire, Release, Signal, Broadcast, CvarWait, Reclaim, Whole, WholeTty;
    InvParts(s);
    match e {
      case EvPipeInit(nullPtr, oom) => InitObjectKept(s, Pipe([], PIPE_BUFFER_LEN, [], []), nullPtr, oom);
      case EvPipeRead(id, len, nullBuf) => PipeReadKept(s, id, len, nullBuf);
      case EvPipeWrite(id, mem, len, oom) => PipeWriteKept(s, id, mem, len, oom);
      case EvLockInit(nullPtr) => InitObjectKept(s, Lock(None), nullPtr, false);
      case EvAcquire(id) => AcquireKept(s, id);
      case EvRelease(id) => ReleaseKept(s, id); IsNoBlock(s, Release(s, id));
      case EvCvarInit(nullPtr) => InitObjectKept(s, Cvar, nullPtr, false);
      case EvSignal(id) => SignalKept(s, id);
      case EvBroadcast(id) => BroadcastKept(s, id);
      case EvCvarWait(c, l) => CvarWaitKept(s, c, l);
      case EvReclaim(id) => ReclaimKept(s, id);
    }
    IpcStep(s, Step(s, e));
  }

  lemma IsNoBlock(s: Kernel, s': Kernel)
    requires Went(s, s', false) && !Blocks(s, s')
    ensures Went(s, s', Blocks(s, s'))
  {
    hide Went, Blocks;
  }

  lemma ResumeKept(s: Kernel)
    requires Inv(s) && Legal(s, EvResume)
    ensures var s' := Step(s, EvResume);
      Went(s, s', Blocks(s, s')) && TtyStep(s') && (!Cur(s).cont.InTtyRead? && !Cur(s).cont.InTtyWrite? ==> LifeKept(s, s'))
  {
    hide Inv, PlaceInv, LockInv, PipeInv, FamilyInv, TtyInv, IpcKept, LifeKept, Before, Went, TtyStep, Blocks, Return,
      ResumeAcquire, ResumeCvarWait, ResumePipeRead, ResumeTtyRead, ResumeTtyWrite, ResumeWait, Whole, WholeTty;
    InvParts(s);
    match Cur(s).cont {
      case InAcquire(l) => ResumeAcquireKept(s, l); IpcStep(s, Resume(s));
      case InCvarWait(c, l) => ResumeCvarWaitKept(s, c, l); IpcStep(s, Resume(s));
      case InPipeRead(id, len) => ResumePipeReadKept(s, id, len); IpcStep(s, Resume(s));
      case InTtyRead => ResumeTtyReadKept(s);
      case InTtyWrite => ResumeTtyWriteKept(s);
      case InDelay => ReturnKept(s, SUCCESS); IpcStep(s, Resume(s)); IsNoBlock(s, Resume(s));
      case InWait(wantStatus) => ResumeWaitKept(s, wantStatus); LifeStep(s, Resume(s));
    }
  }

  lemma OtherCallKept(s: Kernel, e: Event)
    requires Inv(s) && Legal(s, e)
    requires e.EvFork? || e.EvWait? || e.EvDelay? || e.EvTtyRead? || e.EvTtyWrite?
    ensures var s' := Step(s, e);
      Went(s, s', Blocks(s, s')) && TtyStep(s') && (!e.EvTtyRead? && !e.EvTtyWrite? ==> LifeKept(s, s'))
  {
    hide Inv, PlaceInv, LockInv, PipeInv, FamilyInv, TtyInv, LifeKept, Before, Went, TtyStep, Blocks,
      Fork, Wait, Delay, TtyRead, TtyWrite, Whole, WholeTty;
    InvParts(s);
    match e {
      case EvFork(c, made, cloned) => ForkKept(s, c, made, cloned); LifeStep(s, Step(s, e));
      case EvWait(want) => WaitKept(s, want); LifeStep(s, Step(s, e));
      case EvDelay(n) => DelayKept(s, n); LifeStep(s, Step(s, e));
      case EvTtyRead(t, len, nullBuf) => TtyReadKept(s, t, len, nullBuf);
      case EvTtyWrite(t, mem, len, oom) => TtyWriteKept(s, t, mem, len, oom);
    }
  }

  lemma TrapKept(s: Kernel, e: Event)
    requires Inv(s) && Legal(s, e) && (e.EvReceive? || e.EvTransmit?)
    ensures var s' := Step(s, e); Went(s, s', false) && TtyStep(s')
  {
    hide Inv, PlaceInv, LockInv, PipeInv, FamilyInv, TtyInv, Before, Went, TtyStep, TrapReceive, TrapTransmit, Whole,
      WholeTty;
    InvParts(s);
    match e {
      case EvReceive(t, data, ok) => TrapReceiveKept(s, t, data, ok);
      case EvTransmit(t) => TrapTransmitKept(s, t);
    }
  }

  lemma ExitStep(s: Kernel, status: int)
    requires Inv(s) && Cur(s).cont.ToUser? && s.current != s.idle
    ensures Went(s, Exit(s, status), true) && TtyStep(Exit(s, status)) && LifeKept(s, Exit(s, status))
  {
    hide Inv, PlaceInv, LockInv, PipeInv, FamilyInv, TtyInv, LifeKept, Before, Went, TtyStep, Exit, Whole, WholeTty;
    InvParts(s);
    ExitProofs.ExitKept(s, status);
    LifeStep(s, Exit(s, status));
  }

  lemma CurrentAwake(s: Kernel)
    requires PlaceInv(s)
    ensures !Cur(s).state.Blocked?
  {
    hide PlaceBase;
  }

  lemma TrapNeverBlocks(s: Kernel, s': Kernel)
    requires Went(s, s', false)
    ensures !Blocks(s, s')
  {
    hide PlaceInv, Lost;
    CurrentAwake(s');
  }

  /** Every step keeps the invariant, moves the ready queue by what it schedules, and loses only a self-picked process. */
  lemma StepKept(s: Kernel, e: Event)
    requires Inv(s) && Legal(s, e)
    ensures Inv(Step(s, e)) && Stepped(s, e, Step(s, e), Reschedules(s, e))
  {
    hide Inv, PlaceInv, TtyStep, Went, Stepped, Step, Blocks, Exit, Clock;
    if e.EvClock? {
      ClockStep(s);
      StepIs(s, e);
    } else {
      var s' := Step(s, e);
      assert Went(s, s', Reschedules(s, e)) && TtyStep(s') by {
        hide LifeKept;
        match e {
          case EvResume => ResumeKept(s);
          case EvExit(status) => ExitStep(s, status); StepIs(s, e);
          case EvFork(_, _, _) => OtherCallKept(s, e);
          case EvWait(_) => OtherCallKept(s, e);
          case EvDelay(_) => OtherCallKept(s, e);
          case EvTtyRead(_, _, _) => OtherCallKept(s, e);
          case EvTtyWrite(_, _, _, _) => OtherCallKept(s, e);
          case EvReceive(_, _, _) => TrapKept(s, e); TrapNeverBlocks(s, s');
          case EvTransmit(_) => TrapKept(s, e); TrapNeverBlocks(s, s');
          case _ => IpcCallKept(s, e);
        }
      }
      WentStepped(s, e, s', Reschedules(s, e));
      InvOf(s');
    }
  }

  lemma StepIs(s: Kernel, e: Event)
    requires Legal(s, e)
    ensures e.EvExit? ==> Step(s, e) == Exit(s, e.status) && Cur(s).cont.ToUser? && s.current != s.idle
    ensures e.EvClock? ==> Step(s, e) == Clock(s)
  {
    hide Exit, Clock;
  }

  /** Neither a call or trap on a terminal, nor the resumption of such a call. */
  predicate OffTerminals(s: Kernel, e: Event) {
    !e.EvTtyRead? && !e.EvTtyWrite? && !e.EvReceive? && !e.EvTransmit? && !(e.EvResume? && TtyCont(Cur(s).cont))
  }

  /** Such a step leaves every terminal and its queues alone. */
  lemma TerminalsKept(s: Kernel, e: Event)
    requires Inv(s) && Legal(s, e) && OffTerminals(s, e)
    ensures SameTty(s, Step(s, e))
  {
    hide Inv, PlaceInv, LockInv, PipeInv, FamilyInv, TtyInv, TtyStep, Went, Stepped, Step, Blocks, Exit, Clock,
      SameTty, Schedule;
    StepIs(s, e);
    match e {
      case EvClock => ClockStep(s);
      case EvResume => ResumeKept(s);
      case EvExit(status) => ExitStep(s, status);
      case EvFork(_, _, _) => OtherCallKept(s, e);
      case EvWait(_) => OtherCallKept(s, e);
      case EvDelay(_) => OtherCallKept(s, e);
      case _ => IpcCallKept(s, e);
    }
  }

  // ---------- whole runs ----------

  lemma BootPlaces(s: Kernel)
    requires Booted(s)
    ensures PlaceInv(s)
  {
  }

  lemma BootFamily(s: Kernel)
    requires Booted(s)
    ensures FamilyInv(s)
  {
  }

  lemma BootRest(s: Kernel)
    requires Booted(s)
    ensures LockInv(s) && PipeInv(s) && TtyInv(s)
  {
  }

  lemma BootInv(s: Kernel)
    requires Booted(s)
    ensures Inv(s)
  {
    hide PlaceInv, LockInv, PipeInv, FamilyInv, TtyInv, Booted;
    BootPlaces(s);
    BootFamily(s);
    BootRest(s);
  }

  /** No interleaving of system calls and traps leads out of the invariant. */
  lemma {:induction false} RunKept(s: Kernel, es: seq<Event>)
    requires Inv(s) && LegalRun(s, es)
    ensures Inv(Run(s, es))
    decreases |es|
  {
    hide Inv, Step, Stepped, Legal;
    if es != [] {
      StepKept(s, es[0]);
      RunKept(Step(s, es[0]), es[1..]);
    }
  }

  lemma Reachable(s: Kernel, es: seq<Event>)
    requires Booted(s) && LegalRun(s, es)
    ensures Inv(Run(s, es))
  {
    hide Inv, LegalRun, Run, Booted;
    BootInv(s);
    RunKept(s, es);
  }

  /** The kernel can be in state s: some run from boot leads there. */
  ghost predicate Reached(s: Kernel) {
    exists boot, es :: Booted(boot) && LegalRun(boot, es) && Run(boot, es) == s
  }

  lemma ReachedInv(s: Kernel)
    requires Reached(s)
    ensures Inv(s)
  {
    hide Inv, Booted, LegalRun, Run;
    var boot, es :| Booted(boot) && LegalRun(boot, es) && Run(boot, es) == s;
    Reachable(boot, es);
  }
}
