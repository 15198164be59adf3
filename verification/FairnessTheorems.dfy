/** Counts over whole runs: who gets a lock when, who is scheduled when, and when a delay ends. */
module FairnessTheorems {
  import opened Common
  import opened KernelState
  import opened KernelSteps
  import opened KernelInvariants
  import IpcProofs
  import LifeProofs
  import opened StepFrames
  import opened StepTheorems
  import opened RunTheorems
  import SafetyTheorems

  // ---------- first come, first served ----------

  /** After n turns the queue q has moved up by n, nobody overtook, and the n-th in line has what h had. */
  ghost predicate Served<T>(q: seq<T>, h: Option<T>, n: nat, q': seq<T>, h': Option<T>) {
    n <= |q| ==> q[n..] <= q' && h' == if n == 0 then h else Some(q[n - 1])
  }

  lemma ServedThen<T>(q: seq<T>, h: Option<T>, n: nat, q1: seq<T>, h1: Option<T>, m: nat, q2: seq<T>, h2: Option<T>)
    requires Served(q, h, n, q1, h1) && Served(q1, h1, m, q2, h2)
    ensures Served(q, h, n + m, q2, h2)
  {
    if n + m <= |q| {
      assert q[n..][m..] == q[n + m..];
      assert q[n..][m..] <= q1[m..];
      if m > 0 {
        assert q1[m - 1] == q[n..][m - 1];
      }
    }
  }

  /** What Served says about the element at index k. */
  lemma ServedAt<T>(q: seq<T>, h: Option<T>, n: nat, q': seq<T>, h': Option<T>, k: nat)
    requires Served(q, h, n, q', h') && k < |q|
    ensures n <= k ==> k - n < |q'| && q'[k - n] == q[k]
    ensures n == k + 1 ==> h' == Some(q[k])
  {
    if n <= k {
      assert q[n..][k - n] == q[k];
    }
  }

  // ---------- locks ----------

  /** The step gives lock l up: Release, CvarWait or exit by its owner. */
  predicate LetsGo(s: Kernel, e: Event, l: nat) {
    && LockOwner(s, l) == Some(s.current)
    && ((e.EvRelease? && e.id == l) || (e.EvCvarWait? && e.mutex == l && Obj(s, e.cvar).Cvar?) || e.EvExit?)
  }

  ghost predicate PassedOn(s: Kernel, s': Kernel, l: nat) {
    Obj(s', l) == Lock(Woken(s, ObjectQ(l))) && Q(s', ObjectQ(l)) == if Q(s, ObjectQ(l)) == [] then [] else Q(s, ObjectQ(l))[1..]
  }

  ghost predicate Joined(s: Kernel, s': Kernel, l: nat) {
    Q(s', ObjectQ(l)) == Q(s, ObjectQ(l)) || Q(s', ObjectQ(l)) == Q(s, ObjectQ(l)) + [s.current]
  }

  /** What one step can do to lock l. */
  ghost predicate LockMoves(s: Kernel, e: Event, l: nat, s': Kernel) {
    if LetsGo(s, e, l) then PassedOn(s, s', l)
    else if LockOwner(s, l).Some? then Obj(s', l) == Obj(s, l) && Joined(s, s', l)
    else
      Q(s', ObjectQ(l)) == Q(s, ObjectQ(l)) &&
      (Obj(s', l) == Obj(s, l) || Obj(s', l) == Lock(Some(s.current)) || (e == EvReclaim(l) && Obj(s', l) == Free))
  }

  lemma ReleasePasses(s: Kernel, l: nat)
    requires Obj(s, l).Lock?
    ensures PassedOn(s, LockRelease(s, l), l) && LockRelease(s, l).current == s.current
  {
  }

  lemma {:induction false} ReleaseAllPasses(s: Kernel, p: Pid, i: nat, l: nat)
    requires Obj(s, l) == Lock(Some(p)) && i <= l
    ensures PassedOn(s, ReleaseAll(s, p, i), l)
    decreases |s.objects| - i
  {
    hide LockRelease, Touches;
    if Obj(s, i) == Lock(Some(p)) {
      var s1 := LockRelease(s, i);
      LockReleaseTouches(s, i, p);
      TouchedObjects(s, s1, p, {i});
      if i == l {
        ReleasePasses(s, l);
        var ids := set j: int | l < j < |s1.objects| && s1.objects[j] == Lock(Some(p));
        ReleaseAllTouches(s1, p, i + 1, ids);
        KeptAt(s1, ReleaseAll(s1, p, i + 1), p, ids, l);
      } else {
        KeptAt(s, s1, p, {i}, l);
        ReleaseAllPasses(s1, p, i + 1, l);
      }
    } else {
      ReleaseAllPasses(s, p, i + 1, l);
    }
  }

  lemma KeptAt(s: Kernel, s': Kernel, c: Pid, ids: set<int>, l: nat)
    requires Touches(s, s', c, ids) && l !in ids
    ensures ObjectKept(s, s', l)
  {
  }

  lemma ExitPasses(s: Kernel, status: int, l: nat)
    requires Obj(s, l) == Lock(Some(s.current)) && forall x :: x in Cur(s).kin.children ==> x in s.procs
    ensures PassedOn(s, Exit(s, status), l)
  {
    hide Orphan, ReleaseAll, Schedule, MakeReady, Touches;
    var p := s.current;
    var s0 := Orphan(s, p);
    OrphanTouches(s, p);
    KeptAt(s, s0, p, {}, l);
    var s1 := ReleaseAll(s0, p, 0);
    ReleaseAllPasses(s0, p, 0, l);
    var pcb := Proc(s1, p).(kin := Proc(s1, p).kin.(exitStatus := status), state := Zombie);
    var s2 := SetProc(s1, p, pcb);
    ScheduledAt(s2, l);
    if Proc(s2, p).kin.parent.Some? {
      var q := Proc(s2, p).kin.parent.value;
      var woken := Proc(s2, q).(waitingForChild := false);
      MakeReadyTouches(s2, q, woken, p);
      KeptAt(s2, MakeReady(s2, q, woken), p, {}, l);
      ScheduledAt(MakeReady(s2, q, woken), l);
    }
  }

  lemma ScheduledAt(s: Kernel, l: nat)
    ensures ObjectKept(s, Schedule(s), l)
  {
    ScheduleTouches(s, s.current);
  }

  lemma BlockJoins(s: Kernel, l: nat, c: Cont)
    ensures var s' := BlockOn(s, ObjectQ(l), c); Obj(s', l) == Obj(s, l) && Q(s', ObjectQ(l)) == Q(s, ObjectQ(l)) + [s.current]
  {
    hide Schedule;
    ScheduledAt(Enqueue(s, ObjectQ(l), c), l);
  }

  lemma AcquireMoves(s: Kernel, e: Event, l: nat)
    requires Obj(s, l).Lock? && !LetsGo(s, e, l)
    ensures LockMoves(s, e, l, Acquire(s, l)) && LockMoves(s, e, l, s) && forall r :: LockMoves(s, e, l, Return(s, r))
  {
    hide BlockOn;
    BlockJoins(s, l, InAcquire(l));
  }

  lemma CvarWaitPasses(s: Kernel, c: nat, l: nat)
    requires Obj(s, c).Cvar? && LockOwner(s, l) == Some(s.current)
    ensures PassedOn(s, CvarWait(s, c, l), l)
    ensures Obj(CvarWait(s, c, l), c).Cvar? && Q(CvarWait(s, c, l), ObjectQ(c)) == Q(s, ObjectQ(c)) + [s.current]
  {
    hide BlockOn, LockRelease, Touches;
    assert Obj(s, l) == Lock(Some(s.current)) && c != l;
    ReleasePasses(s, l);
    var s1 := LockRelease(s, l);
    LockReleaseTouches(s, l, s.current);
    KeptAt(s, s1, s.current, {l}, c);
    BlockTouches(s1, ObjectQ(c), InCvarWait(c, l));
    KeptAt(s1, BlockOn(s1, ObjectQ(c), InCvarWait(c, l)), s1.current, {c}, l);
    BlockJoins(s1, c, InCvarWait(c, l));
  }

  lemma ResumeMoves(s: Kernel, l: nat)
    requires Inv(s) && Legal(s, EvResume) && Obj(s, l).Lock? && l in Named(s, EvResume)
    ensures LockMoves(s, EvResume, l, Step(s, EvResume))
  {
    hide Inv, IpcProofs.Before, Acquire, Return, ResumeAcquire, PipeReadLoop, LockMoves, LifeProofs.Whole, Granted,
      PlaceInv, LockInv, PipeInv, FamilyInv, TtyInv, LetsGo;
    NotByResume(s, l);
    InvParts(s);
    AcquireMoves(s, EvResume, l);
    match Cur(s).cont {
      case InAcquire(l) =>
        IpcProofs.ResumeAcquireGrants(s, l);
        GrantedMoves(s, l);
      case InCvarWait(_, _) =>
      case InPipeRead(_, _) =>
    }
  }

  lemma NotByResume(s: Kernel, l: nat)
    ensures !LetsGo(s, EvResume, l)
  {
  }

  lemma GrantedMoves(s: Kernel, l: nat)
    requires Obj(s, l) == Lock(Some(s.current))
    ensures LockMoves(s, EvResume, l, Granted(s, l))
  {
  }

  lemma CallMoves(s: Kernel, e: Event, l: nat)
    requires Legal(s, e) && !e.EvResume? && Obj(s, l).Lock? && l in Named(s, e) && Living(s)
    ensures LockMoves(s, e, l, Step(s, e))
  {
    hide Acquire, Finish, LockMoves, LockRelease, CvarWait, Exit, PipeReadLoop, WakeAll, WakeOne, LetsGo, PassedOn;
    match e {
      case EvExit(status) => ExitPasses(s, status, l); GoingMoves(s, e, l, Step(s, e));
      case EvRelease(id) =>
        if LockOwner(s, id) == Some(s.current) {
          ReleasePasses(s, l);
          GoingMoves(s, e, l, Step(s, e));
          FinishAt(LockRelease(s, l), Cur(LockRelease(s, l)), SUCCESS, l);
          PassedThen(s, LockRelease(s, l), Step(s, e), l);
        } else {
          StayingMoves(s, e, l);
        }
      case EvCvarWait(c, m) =>
        if Obj(s, c).Cvar? && LockOwner(s, m) == Some(s.current) {
          CvarWaitPasses(s, c, m);
          GoingMoves(s, e, l, Step(s, e));
        } else {
          CvarWaitFails(s, c, m);
          StayingMoves(s, e, l);
        }
      case EvAcquire(_) => StayingMoves(s, e, l);
      case EvReclaim(_) => StayingMoves(s, e, l); ReclaimMoves(s, l);
      case EvPipeInit(_, _) =>
      case EvLockInit(_) =>
      case EvCvarInit(_) =>
      case EvPipeRead(_, _, _) => StayingMoves(s, e, l);
      case EvPipeWrite(_, _, _, _) => StayingMoves(s, e, l);
      case EvSignal(_) => StayingMoves(s, e, l);
      case EvBroadcast(_) => StayingMoves(s, e, l);
    }
  }

  lemma CvarWaitFails(s: Kernel, c: int, l: int)
    requires !Obj(s, c).Cvar? || LockOwner(s, l) != Some(s.current)
    ensures CvarWait(s, c, l) == Return(s, ERROR)
  {
  }

  lemma FinishAt(s: Kernel, pcb: Pcb, r: int, l: nat)
    ensures ObjectKept(s, Finish(s, pcb, r), l)
  {
  }

  lemma PassedThen(s: Kernel, s1: Kernel, s': Kernel, l: nat)
    requires PassedOn(s, s1, l) && ObjectKept(s1, s', l)
    ensures PassedOn(s, s', l)
  {
  }

  lemma GoingMoves(s: Kernel, e: Event, l: nat, s': Kernel)
    requires Obj(s, l).Lock?
    ensures LockOwner(s, l) == Some(s.current) && e.EvExit? && PassedOn(s, s', l) ==> LockMoves(s, e, l, s')
    ensures LockOwner(s, l) == Some(s.current) && e == EvRelease(l) && PassedOn(s, s', l) ==> LockMoves(s, e, l, s')
    ensures LockOwner(s, l) == Some(s.current) && e.EvCvarWait? && e.mutex == l && Obj(s, e.cvar).Cvar? && PassedOn(s, s', l)
      ==> LockMoves(s, e, l, s')
  {
  }

  lemma StayingMoves(s: Kernel, e: Event, l: nat)
    requires Obj(s, l).Lock?
    ensures !LetsGo(s, e, l) ==> LockMoves(s, e, l, Acquire(s, l)) && forall r :: LockMoves(s, e, l, Return(s, r))
    ensures LetsGo(s, e, l) ==> e.EvRelease? || e.EvCvarWait? || e.EvExit?
    ensures LetsGo(s, e, l) && e.EvRelease? ==> LockOwner(s, e.id) == Some(s.current)
    ensures LetsGo(s, e, l) && e.EvCvarWait? ==> Obj(s, e.cvar).Cvar? && LockOwner(s, e.mutex) == Some(s.current)
  {
    hide Acquire, Return, LockMoves;
    if !LetsGo(s, e, l) {
      AcquireMoves(s, e, l);
    }
  }

  lemma ReclaimMoves(s: Kernel, l: nat)
    requires Obj(s, l).Lock?
    ensures LockMoves(s, EvReclaim(l), l, Reclaim(s, l))
  {
  }

  /** One step passes a lock on to its oldest waiter, or leaves its owner and its waiters where they are. */
  lemma LockStep(s: Kernel, e: Event, l: nat)
    requires Inv(s) && Legal(s, e) && Obj(s, l).Lock?
    ensures LockMoves(s, e, l, Step(s, e))
  {
    hide Inv, Legal, Step, Isolated, PassedOn, Living;
    LivingOf(s);
    StepIsolated(s, e);
    if l in Named(s, e) {
      if e.EvResume? {
        ResumeMoves(s, l);
      } else {
        CallMoves(s, e, l);
      }
    } else {
      UnnamedKept(s, e, l);
    }
  }

  lemma UnnamedKept(s: Kernel, e: Event, l: nat)
    requires Legal(s, e) && Isolated(s, e, Step(s, e)) && l !in Named(s, e) && Obj(s, l).Lock?
    ensures LockMoves(s, e, l, Step(s, e))
  {
    hide Step;
    assert ObjectKept(s, Step(s, e), l);
  }

  /** How often lock l is given up in a run. */
  function Releases(s: Kernel, es: seq<Event>, l: nat): nat
    requires LegalRun(s, es)
    decreases |es|
  {
    if es == [] then 0
    else (if LetsGo(s, es[0], l) then 1 else 0) + Releases(Step(s, es[0]), es[1..], l)
  }

  lemma LockServes(s: Kernel, e: Event, l: nat)
    requires Inv(s) && Legal(s, e) && LockOwner(s, l).Some?
    ensures var s' := Step(s, e);
      Served(Q(s, ObjectQ(l)), LockOwner(s, l), if LetsGo(s, e, l) then 1 else 0, Q(s', ObjectQ(l)), LockOwner(s', l))
  {
    hide Inv, Legal, Step, LetsGo;
    LockStep(s, e, l);
  }

  /** A lock that is owned serves its waiters in order, whatever else happens. */
  lemma {:induction false} LockIsFair(s: Kernel, es: seq<Event>, l: nat)
    requires Inv(s) && LegalRun(s, es) && LockOwner(s, l).Some?
    ensures var s' := Run(s, es);
      Served(Q(s, ObjectQ(l)), LockOwner(s, l), Releases(s, es, l), Q(s', ObjectQ(l)), LockOwner(s', l))
    decreases |es|
  {
    hide Inv, Step, Legal, Served, LetsGo, Q, LockOwner;
    if es == [] {
      ServedNow(Q(s, ObjectQ(l)), LockOwner(s, l));
    } else {
      var s1 := Step(s, es[0]);
      LockServes(s, es[0], l);
      StepKept(s, es[0]);
      if LockOwner(s1, l).Some? {
        LockIsFair(s1, es[1..], l);
        ServedThen(Q(s, ObjectQ(l)), LockOwner(s, l), if LetsGo(s, es[0], l) then 1 else 0, Q(s1, ObjectQ(l)), LockOwner(s1, l),
                   Releases(s1, es[1..], l), Q(Run(s, es), ObjectQ(l)), LockOwner(Run(s, es), l));
      } else {
        ServedNone(Q(s, ObjectQ(l)), LockOwner(s, l), if LetsGo(s, es[0], l) then 1 else 0, Q(s1, ObjectQ(l)), Releases(s1, es[1..], l),
                   Q(Run(s, es), ObjectQ(l)), LockOwner(Run(s, es), l));
      }
    }
  }

  lemma ServedNow<T>(q: seq<T>, h: Option<T>)
    ensures Served(q, h, 0, q, h)
  {
  }

  lemma ServedNone<T>(q: seq<T>, h: Option<T>, n: nat, q1: seq<T>, m: nat, q': seq<T>, h': Option<T>)
    requires h.Some? && Served(q, h, n, q1, None)
    ensures Served(q, h, n + m, q', h')
  {
  }

  /**
   * The waiter at index k of a lock stays in the queue, with exactly the waiters before it that were before it,
   * until the (k + 1)-th release from now, which makes it the owner.
   */
  lemma KthWaiter(s: Kernel, es: seq<Event>, l: nat, k: nat)
    requires Reached(s) && LegalRun(s, es) && Obj(s, l).Lock? && k < |Q(s, ObjectQ(l))|
    ensures var s', p, n := Run(s, es), Q(s, ObjectQ(l))[k], Releases(s, es, l);
      && (n <= k ==> k - n < |Q(s', ObjectQ(l))| && Q(s', ObjectQ(l))[k - n] == p && LockOwner(s', l) != Some(p))
      && (n == k + 1 ==> LockOwner(s', l) == Some(p))
  {
    hide Reached, Inv, LegalRun, Run, Releases, Served, Q, LockOwner;
    ReachedInv(s);
    var s', p, n := Run(s, es), Q(s, ObjectQ(l))[k], Releases(s, es, l);
    OwnedWhileWaiting(s, l);
    LockIsFair(s, es, l);
    RunKept(s, es);
    ServedAt(Q(s, ObjectQ(l)), LockOwner(s, l), n, Q(s', ObjectQ(l)), LockOwner(s', l), k);
    if n <= k {
      WaiterIsNoOwner(s', l, p);
    }
  }

  lemma OwnedWhileWaiting(s: Kernel, l: nat)
    requires Inv(s) && Obj(s, l).Lock? && Q(s, ObjectQ(l)) != []
    ensures LockOwner(s, l).Some?
  {
    hide PlaceInv, LockInv, FamilyInv, PipeInv, TtyInv;
    SafetyTheorems.FreeLockUnqueued(s, l);
  }

  lemma WaiterIsNoOwner(s: Kernel, l: nat, p: Pid)
    requires Inv(s) && p in Q(s, ObjectQ(l))
    ensures LockOwner(s, l) != Some(p)
  {
    hide PlaceInv, LockInv, FamilyInv, PipeInv, TtyInv;
    SafetyTheorems.QueuedRight(s, l, p);
  }

  // ---------- scheduling ----------

  /** How often ProcessSchedule runs. */
  function Schedules(s: Kernel, es: seq<Event>): nat
    requires LegalRun(s, es)
    decreases |es|
  {
    if es == [] then 0
    else (if Reschedules(s, es[0]) then 1 else 0) + Schedules(Step(s, es[0]), es[1..])
  }

  lemma {:induction false} ReadyIsFair(s: Kernel, es: seq<Event>)
    requires Inv(s) && LegalRun(s, es)
    ensures Served(s.ready, Some(s.current), Schedules(s, es), Run(s, es).ready, Some(Run(s, es).current))
    decreases |es|
  {
    hide Inv, Step, Legal, Reschedules, Lost, SelfPicked;
    if es != [] {
      var s1 := Step(s, es[0]);
      StepKept(s, es[0]);
      var n := if Reschedules(s, es[0]) then 1 else 0;
      assert Served(s.ready, Some(s.current), n, s1.ready, Some(s1.current));
      hide Stepped;
      ReadyIsFair(s1, es[1..]);
      ServedThen(s.ready, Some(s.current), n, s1.ready, Some(s1.current), Schedules(s1, es[1..]),
                 Run(s, es).ready, Some(Run(s, es).current));
    }
  }

  /** The process at index k of the ready queue is selected by exactly the (k + 1)-th ProcessSchedule from now. */
  lemma KthReady(s: Kernel, es: seq<Event>, k: nat)
    requires Reached(s) && LegalRun(s, es) && k < |s.ready|
    ensures var s', n := Run(s, es), Schedules(s, es);
      && (n <= k ==> k - n < |s'.ready| && s'.ready[k - n] == s.ready[k] && s'.current != s.ready[k])
      && (n == k + 1 ==> s'.current == s.ready[k])
  {
    hide Reached, Inv, LegalRun, Run, Schedules, Served;
    ReachedInv(s);
    var s', n := Run(s, es), Schedules(s, es);
    ReadyIsFair(s, es);
    RunKept(s, es);
    ServedAt(s.ready, Some(s.current), n, s'.ready, Some(s'.current), k);
    CurrentNotReady(s');
  }

  lemma CurrentNotReady(s: Kernel)
    requires Inv(s)
    ensures s.current !in s.ready
  {
  }

  // ---------- delays ----------

  function Ticks(es: seq<Event>): nat {
    if es == [] then 0 else (if es[0].EvClock? then 1 else 0) + Ticks(es[1..])
  }

  lemma DelayedMeans(s: Kernel, p: Pid)
    requires Inv(s) && p in s.procs && s.procs[p].delayUntil != 0
    ensures s.procs[p].state.Blocked? && p != s.current && s.procs[p].delayUntil > s.clock && p !in s.ready
  {
    assert ParksAgree(s, p);
  }

  /** A delay ends with the clock trap that reaches its time; no other step changes it. */
  lemma DelayStep(s: Kernel, e: Event, p: Pid)
    requires Inv(s) && Legal(s, e) && p in s.procs && s.procs[p].delayUntil != 0
    ensures var s' := Step(s, e);
      && p in s'.procs && s'.clock == s.clock + (if e.EvClock? then 1 else 0)
      && s'.procs[p].delayUntil == if e.EvClock? && s.procs[p].delayUntil == s.clock + 1 then 0 else s.procs[p].delayUntil
  {
    hide Inv, Legal, Step, AcceptedBy, Named, ObjectKept;
    StepIsolated(s, e);
    StepKept(s, e);
    DelayedMeans(s, p);
    var s' := Step(s, e);
    if p in s'.procs && s'.procs[p].delayUntil != 0 {
      DelayedMeans(s', p);
    }
  }

  lemma {:induction false} StillDelayed(s: Kernel, es: seq<Event>, p: Pid)
    requires Inv(s) && LegalRun(s, es) && p in s.procs && s.procs[p].delayUntil > s.clock + Ticks(es)
    ensures var s' := Run(s, es);
      p in s'.procs && s'.procs[p].delayUntil == s.procs[p].delayUntil && s'.clock == s.clock + Ticks(es)
    decreases |es|
  {
    hide Inv, Step, Legal;
    if es != [] {
      DelayStep(s, es[0], p);
      StepKept(s, es[0]);
      StillDelayed(Step(s, es[0]), es[1..], p);
    }
  }

  lemma DelayEnds(s: Kernel, p: Pid)
    requires Inv(s) && p in s.procs && s.procs[p].delayUntil == s.clock + 1
    ensures p in Clock(s).ready || p == Clock(s).current
  {
    DelayedMeans(s, p);
    hide Inv, LifeProofs.Whole, LifeProofs.LifeKept, Clock, ScheduleFrame;
    InvParts(s);
    LifeProofs.ClockKept(s);
    assert DelayOver(s.(clock := s.clock + 1), p);
  }

  lemma DelayStarts(s: Kernel, n: int)
    requires Inv(s) && Legal(s, EvDelay(n)) && n > 0 && s.current != s.idle
    ensures var s' := Step(s, EvDelay(n));
      && s.current in s'.procs && s'.clock == s.clock
      && s'.procs[s.current].delayUntil == s.clock + n && s'.procs[s.current].cont == InDelay
  {
    hide Inv, Schedule, Touches;
    var s1 := SetCur(s, Cur(s).(delayUntil := s.clock + n, state := Blocked, cont := InDelay).Returning(SUCCESS));
    StillUp(s);
    ScheduleTouches(s1, s.idle);
    KeptFor(s1, Schedule(s1), s.idle, s.current);
  }

  lemma StillUp(s: Kernel)
    requires Inv(s)
    ensures s.current in s.procs && s.idle in s.procs
  {
    hide LockInv, PipeInv, FamilyInv, TtyInv, ParksAgree;
  }

  lemma KeptFor(s: Kernel, s': Kernel, c: Pid, p: Pid)
    requires Touches(s, s', c, {}) && p in s.procs && p != c && s.procs[p].delayUntil > s.clock
    ensures p in s'.procs && s'.procs[p].cont == s.procs[p].cont && s'.procs[p].delayUntil == s.procs[p].delayUntil && s'.clock == s.clock
  {
    hide ObjectKept;
    assert PartKept(s.procs[p], s'.procs[p], s.clock);
  }

  /**
   * A process that calls Delay(n) sleeps through every run with fewer than n clock traps, whatever else
   * happens in it, and the n-th clock trap makes it ready or running.
   */
  lemma DelayIsExact(s: Kernel, n: int, es: seq<Event>)
    requires Reached(s) && Legal(s, EvDelay(n)) && n > 0 && s.current != s.idle
    requires LegalRun(Step(s, EvDelay(n)), es) && Ticks(es) < n
    ensures var p, s' := s.current, Run(Step(s, EvDelay(n)), es);
      && p in s'.procs && s'.procs[p].state.Blocked? && p != s'.current && p !in s'.ready
      && (Ticks(es) == n - 1 ==> p in Clock(s').ready || p == Clock(s').current)
  {
    hide Reached, Inv, Step, Legal, LegalRun, Run, Clock;
    ReachedInv(s);
    var p, s1 := s.current, Step(s, EvDelay(n));
    DelayStarts(s, n);
    StepKept(s, EvDelay(n));
    StillDelayed(s1, es, p);
    RunKept(s1, es);
    DelayedMeans(Run(s1, es), p);
    if Ticks(es) == n - 1 {
      DelayEnds(Run(s1, es), p);
    }
  }
}
