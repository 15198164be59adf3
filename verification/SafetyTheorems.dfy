/** What the invariant says about one reachable state: where processes are, who owns what, who waits and why. */
module SafetyTheorems {
  import opened Common
  import opened KernelState
  import opened KernelSteps
  import opened KernelInvariants
  import opened LifeProofs
  import opened RunTheorems
  import TtyProofs
  import opened ScheduleProofs

  // ---------- places ----------

  /** Where the kernel can find a process again. */
  datatype Place =
    | Current
    | InReadyQueue
    | InWaitQueue(q: QueueId)
    | Writing(tty: nat)
    | Delayed
    | AwaitingChild
    | Reapable

  predicate At(s: Kernel, p: Pid, place: Place) {
    match place
    case Current => p == s.current
    case InReadyQueue => p in s.ready
    case InWaitQueue(q) => p in Q(s, q)
    case Writing(t) => Term(s, t).writer == Some(p)
    case Delayed => Proc(s, p).delayUntil != 0
    case AwaitingChild => Proc(s, p).waitingForChild
    case Reapable => Proc(s, p).state.Zombie?
  }

  /** The only place a process can be, judging by its PCB. */
  function PlaceOf(s: Kernel, p: Pid): Place {
    var pcb := Proc(s, p);
    if pcb.state.Zombie? then Reapable
    else if pcb.blockQueue.Some? then InWaitQueue(pcb.blockQueue.value)
    else if pcb.delayUntil != 0 then Delayed
    else if pcb.waitingForChild then AwaitingChild
    else if IsWriter(s, p) then Writing(pcb.ttyId)
    else if p == s.current then Current
    else InReadyQueue
  }

  lemma NoOtherPlace(s: Kernel, p: Pid, place: Place)
    requires PlaceInv(s) && p in s.procs && p != s.idle && At(s, p, place)
    ensures place == PlaceOf(s, p)
  {
    assert ParksAgree(s, p) && ParksAgree(s, s.current);
  }

  lemma ItsPlace(s: Kernel, p: Pid)
    requires PlaceInv(s) && p in s.procs && p != s.idle
    ensures At(s, p, PlaceOf(s, p)) <==> !Lost(s, p)
  {
    assert ParksAgree(s, p);
  }

  /** A live process is in exactly one place, unless it is lost; a lost one is in none. */
  lemma OnePlace(s: Kernel, p: Pid)
    requires Reached(s) && p in s.procs && p != s.idle
    ensures forall a, b :: At(s, p, a) && At(s, p, b) ==> a == b
    ensures (exists a :: At(s, p, a)) <==> !Lost(s, p)
  {
    hide Reached, PlaceInv, At, PlaceOf, Lost, LockInv, PipeInv, FamilyInv, TtyInv;
    ReachedInv(s);
    forall a | At(s, p, a) ensures a == PlaceOf(s, p) {
      NoOtherPlace(s, p, a);
    }
    ItsPlace(s, p);
  }

  /** block_queue is set exactly when block_entry is linked, and names that queue; so every QueueRemove is on the right list. */
  lemma BookkeepingAgrees(s: Kernel, p: Pid)
    requires Reached(s) && p in s.procs
    ensures forall q :: p in Q(s, q) <==> s.procs[p].blockQueue == Some(q)
    ensures p in s.ready ==> s.procs[p].state.Ready? && s.procs[p].blockQueue.None?
    ensures s.procs[p].blockQueue.Some? ==> s.procs[p].state.Blocked?
    ensures p == s.current ==> p !in s.ready && s.procs[p].blockQueue.None?
    ensures Unique(s.ready) && forall q :: Unique(Q(s, q))
  {
    hide Reached, LockInv, PipeInv, FamilyInv, TtyInv, ParksAgree;
    ReachedInv(s);
    assert ParksAgree(s, p) && ParksAgree(s, s.current);
    ParksMean(s, p);
    ParksMean(s, s.current);
  }

  lemma ParksMean(s: Kernel, p: Pid)
    requires ParksAgree(s, p)
    ensures Proc(s, p).blockQueue.Some? ==> Proc(s, p).state.Blocked?
  {
  }

  // ---------- who gets lost ----------

  /** Some clock trap of the run finds the running process marked ready. */
  predicate SelfPicks(s: Kernel, es: seq<Event>)
    requires LegalRun(s, es)
    decreases |es|
  {
    es != [] && (SelfPicked(s, es[0]) || SelfPicks(Step(s, es[0]), es[1..]))
  }

  ghost predicate SomeLost(s: Kernel) {
    exists p :: Lost(s, p)
  }

  lemma StepLoses(s: Kernel, e: Event)
    requires Inv(s) && Legal(s, e)
    ensures Inv(Step(s, e))
    ensures forall p :: Lost(s, p) ==> Lost(Step(s, e), p)
    ensures SomeLost(Step(s, e)) <==> SomeLost(s) || SelfPicked(s, e)
  {
    hide Inv, Step, Lost, Legal, SelfPicked;
    StepKept(s, e);
    var s' := Step(s, e);
    if SelfPicked(s, e) {
      assert Lost(s', s.current);
    }
    if SomeLost(s) {
      var p :| Lost(s, p);
      assert Lost(s', p);
    }
  }

  /** From here on: a run loses a process exactly when somebody is lost already or some clock trap is a self-pick. */
  lemma {:induction false} LostIff(s: Kernel, es: seq<Event>)
    requires Inv(s) && LegalRun(s, es)
    ensures SomeLost(Run(s, es)) <==> SomeLost(s) || SelfPicks(s, es)
    decreases |es|
  {
    hide Inv, Step, SomeLost, Legal, SelfPicked;
    if es != [] {
      StepLoses(s, es[0]);
      LostIff(Step(s, es[0]), es[1..]);
    }
  }

  lemma {:induction false} LostForever(s: Kernel, es: seq<Event>, p: Pid)
    requires Inv(s) && LegalRun(s, es) && Lost(s, p)
    ensures Lost(Run(s, es), p)
    decreases |es|
  {
    hide Inv, Step, Lost, Legal, SomeLost;
    if es != [] {
      StepLoses(s, es[0]);
      LostForever(Step(s, es[0]), es[1..], p);
    }
  }

  /** Every process is in exactly one place throughout a run from boot exactly when no clock trap of it is a self-pick. */
  lemma PlacesKeptIff(s: Kernel, es: seq<Event>)
    requires Booted(s) && LegalRun(s, es)
    ensures SomeLost(Run(s, es)) <==> SelfPicks(s, es)
  {
    hide Inv, LegalRun, Run, SelfPicks, Lost, Booted;
    BootInv(s);
    forall p ensures !Lost(s, p) {
      BootFindsAll(s, p);
    }
    LostIff(s, es);
  }

  lemma BootFindsAll(s: Kernel, p: Pid)
    requires Booted(s)
    ensures !Lost(s, p)
  {
  }

  /** Nobody's delay ends with the next tick. */
  ghost predicate NoDelayEnds(s: Kernel) {
    forall p :: p in s.procs && s.procs[p].delayUntil != 0 ==> s.procs[p].delayUntil != s.clock + 1
  }

  /** ProcessSchedule with nobody else to run: the process goes through the ready queue and back. */
  lemma PicksItself(s: Kernel)
    requires Inv(s) && s.current != s.idle && Cur(s).state.Running? && s.ready == [] && NoDelayEnds(s)
    ensures Clock(s).current == s.current && Cur(Clock(s)).state.Ready?
  {
    hide Inv, DelayOver, NoDelayEnds;
    var s1 := s.(clock := s.clock + 1);
    NobodyOver(s, s1);
    NobodyDelayed(s1, 0);
  }

  lemma NobodyOver(s: Kernel, s1: Kernel)
    requires Inv(s) && s1 == s.(clock := s.clock + 1) && NoDelayEnds(s)
    ensures s.current in s.procs && forall p :: !DelayOver(s1, p)
  {
    hide LockInv, PipeInv, FamilyInv, TtyInv, ParksAgree, QueuesAgree, ReadyAgrees, WritersAgree;
    forall p ensures !DelayOver(s1, p) {
      assert p in s.procs && s.procs[p].delayUntil != 0 ==> s.procs[p].delayUntil > s.clock;
    }
  }

  lemma {:induction false} NobodyDelayed(s: Kernel, i: nat)
    requires forall p :: !DelayOver(s, p)
    ensures WakeDelayed(s, i) == s
    decreases MAX_PROCS - i
  {
    hide DelayOver;
    if i < MAX_PROCS {
      NobodyDelayed(s, i + 1);
    }
  }

  /** Somebody else is ready or gets ready: the next process is another one, and it is marked running. */
  lemma PicksAnother(s: Kernel)
    requires Inv(s) && s.current != s.idle && (s.ready != [] || !NoDelayEnds(s))
    ensures Clock(s).current != s.current && Cur(Clock(s)).state.Running?
  {
    hide LockInv, PipeInv, FamilyInv, TtyInv, LifeKept, ParksAgree, ScheduleFrame, Requeued, WakeDelayed,
      RequeueCurrent, SwitchNext;
    var s1 := s.(clock := s.clock + 1);
    InvParts(s);
    TickLife(s, s1);
    var s2, s3 := WakeDelayed(s1, 0), RequeueCurrent(WakeDelayed(s1, 0));
    SchedulePhases(s1, s2, s3);
    ReadySome(s, s1, s2);
    Switched(s2, s3);
  }

  lemma ReadySome(s: Kernel, s1: Kernel, s2: Kernel)
    requires PlaceInv(s) && s1 == s.(clock := s.clock + 1) && DelayedWoken(s1, 0, s2) && (s.ready != [] || !NoDelayEnds(s))
    ensures s2.ready != [] && s2.ready[0] != s.current && s2.current == s.current
  {
    hide ScheduleFrame;
    if s.ready == [] {
      var p :| p in s.procs && s.procs[p].delayUntil != 0 && s.procs[p].delayUntil == s.clock + 1;
      assert ParksAgree(s, p) && ParksAgree(s, s.current);
      assert DelayOver(s1, p) && !DelayOver(s1, s.current);
      assert s2.ready[0] in s2.ready;
    }
  }

  lemma Switched(s2: Kernel, s3: Kernel)
    requires s2.ready != [] && s2.ready[0] != s2.current && s3.current == s2.current
    requires s3 == (if Requeues(s2) then RequeuedState(s2) else s2)
    ensures SwitchNext(s3).current == s2.ready[0] && Cur(SwitchNext(s3)).state.Running?
  {
  }

  /** A clock trap sets up a self-pick exactly when the running process is alone: no other is ready and no delay ends. */
  lemma SelfPickArises(s: Kernel)
    requires Inv(s) && s.current != s.idle && Cur(s).state.Running?
    ensures SelfPicked(Clock(s), EvClock) <==> s.ready == [] && NoDelayEnds(s)
  {
    hide Inv, Clock, NoDelayEnds;
    ClockStep(s);
    if s.ready == [] && NoDelayEnds(s) {
      PicksItself(s);
    } else {
      PicksAnother(s);
    }
  }

  /** Two clock ticks after boot the only user process is gone for good. */
  lemma BootThenTwoTicks(s: Kernel)
    requires Booted(s)
    ensures LegalRun(s, [EvClock, EvClock]) && Lost(Run(s, [EvClock, EvClock]), s.init)
  {
    hide Inv, Clock, Lost, NoDelayEnds, Booted;
    var s1 := Clock(s);
    BootInv(s);
    BootAlone(s);
    PicksItself(s);
    ClockStep(s);
    ClockCont(s);
    ClockStep(s1);
    assert [EvClock, EvClock][1..] == [EvClock];
    assert [EvClock][1..] == [];
  }

  lemma BootAlone(s: Kernel)
    requires Booted(s)
    ensures Cur(s).state.Running? && s.current == s.init != s.idle && NoDelayEnds(s) && Cur(s).cont.ToUser? && s.ready == []
  {
  }

  lemma ClockCont(s: Kernel)
    requires Inv(s)
    ensures Proc(Clock(s), s.current).cont == Cur(s).cont
  {
    hide PlaceInv, LockInv, PipeInv, FamilyInv, TtyInv, LifeKept, Lost, Clock;
    InvParts(s);
    ClockKept(s);
  }

  // ---------- no dangling PCB, and zombies ----------

  /** Nothing in the kernel refers to a process that was destroyed. */
  lemma NoDanglingPcb(s: Kernel, p: Pid)
    requires Reached(s) && p !in s.procs
    ensures p != s.current && p != s.idle && p !in s.ready
    ensures forall q :: p !in Q(s, q)
    ensures forall l: nat :: LockOwner(s, l) != Some(p)
    ensures forall t: nat :: Term(s, t).writer != Some(p)
    ensures forall c :: !HasParent(s, c, p) && !HasChild(s, c, p)
  {
    hide Reached, LockInv, FamilyInv, PipeInv, TtyInv, ParksAgree;
    ReachedInv(s);
    OwnersLive(s, p);
    KinLive(s, p);
  }

  lemma OwnersLive(s: Kernel, p: Pid)
    requires LockInv(s) && p !in s.procs
    ensures forall l: nat :: LockOwner(s, l) != Some(p)
  {
    hide WaitersRight, ContsRight, HoldersRight;
    forall l: nat ensures LockOwner(s, l) != Some(p) {
      OwnerNotDead(s, l);
    }
  }

  lemma OwnerNotDead(s: Kernel, l: nat)
    requires OwnersRight(s)
    ensures LockOwner(s, l).Some? ==> LockOwner(s, l).value in s.procs && !s.procs[LockOwner(s, l).value].state.Zombie?
  {
  }

  lemma KinLive(s: Kernel, p: Pid)
    requires FamilyInv(s) && p !in s.procs
    ensures forall c :: !HasParent(s, c, p) && !HasChild(s, c, p)
  {
    hide ZombiesRight, ParentsRight;
    forall c ensures !HasParent(s, c, p) && !HasChild(s, c, p) {
      assert HasChild(s, p, c) == HasParent(s, c, p);
      assert HasChild(s, c, p) == HasParent(s, p, c);
    }
  }

  /** A zombie owns no lock, is in no queue, writes nothing and has no children. */
  lemma ZombieHoldsNothing(s: Kernel, z: Pid)
    requires Reached(s) && z in s.procs && s.procs[z].state.Zombie?
    ensures z != s.current && z !in s.ready && (forall q :: z !in Q(s, q))
    ensures forall l: nat :: LockOwner(s, l) != Some(z) && l !in s.procs[z].user.held
    ensures forall t: nat :: Term(s, t).writer != Some(z)
    ensures forall c :: !HasChild(s, z, c) && !HasParent(s, c, z)
  {
    hide Reached, ParksAgree;
    ReachedInv(s);
    assert ParksAgree(s, z);
    ParkedNot(s, z);
    forall l: nat ensures LockOwner(s, l) != Some(z) && l !in s.procs[z].user.held {
      OwnerNotDead(s, l);
    }
    forall c ensures !HasChild(s, z, c) && !HasParent(s, c, z) {
      assert HasChild(s, z, c) == HasParent(s, c, z);
    }
  }

  lemma ParkedNot(s: Kernel, z: Pid)
    requires ParksAgree(s, z) && !Proc(s, z).state.Blocked?
    ensures Proc(s, z).blockQueue.None? && !IsWriter(s, z)
  {
  }

  /** A child's parent pointer and its entry in the list of children say the same, each child once. */
  lemma ParentIffChild(s: Kernel, p: Pid, c: Pid)
    requires Reached(s)
    ensures HasChild(s, p, c) <==> HasParent(s, c, p)
    ensures p in s.procs ==> Unique(s.procs[p].kin.children)
  {
    hide Reached;
    ReachedInv(s);
  }

  // ---------- locks ----------

  /**
   * Mutual exclusion: at most one process has a lock given to it by a successful call and not yet
   * released, and it is the lock's owner. An owner that does not know yet has been woken. A free lock has no waiters.
   */
  lemma MutualExclusion(s: Kernel, l: nat, p: Pid, q: Pid)
    requires Reached(s)
    ensures p in s.procs && q in s.procs && l in s.procs[p].user.held && l in s.procs[q].user.held ==> p == q
    ensures p in s.procs && l in s.procs[p].user.held ==> Obj(s, l) == Lock(Some(p))
    ensures Obj(s, l) == Lock(Some(p)) ==>
      p in s.procs && (l in s.procs[p].user.held || (s.procs[p].cont == InAcquire(l) && s.procs[p].blockQueue.None?))
    ensures Obj(s, l) == Lock(None) ==> Q(s, ObjectQ(l)) == []
  {
    hide Reached, PipeInv, FamilyInv, TtyInv, PlaceInv;
    ReachedInv(s);
    FreeLockUnqueued(s, l);
  }

  /** Whoever is queued on an object waits for what that object is, and a free lock or slot has nobody queued. */
  lemma QueuedRight(s: Kernel, l: nat, p: Pid)
    requires PlaceInv(s) && LockInv(s) && p in Q(s, ObjectQ(l))
    ensures p in s.procs && s.procs[p].blockQueue == Some(ObjectQ(l)) && WaitsRight(s, p, l)
  {
    hide OwnersRight, HoldersRight, ContsRight, WaitsRight, ParksAgree;
  }

  lemma FreeLockUnqueued(s: Kernel, l: nat)
    requires PlaceInv(s) && LockInv(s)
    ensures Obj(s, l) == Lock(None) || Obj(s, l).Free? ==> Q(s, ObjectQ(l)) == []
  {
    hide PlaceInv, LockInv;
    if Q(s, ObjectQ(l)) != [] {
      QueuedRight(s, l, Q(s, ObjectQ(l))[0]);
    }
  }

  /** A process waiting for a lock is queued while another owns it, or owns it already. */
  lemma LockWaiterOwnsOrWaits(s: Kernel, p: Pid, l: nat)
    requires Reached(s) && p in s.procs && s.procs[p].cont == InAcquire(l)
    ensures p in Q(s, ObjectQ(l)) <==> Obj(s, l) != Lock(Some(p))
    ensures p in Q(s, ObjectQ(l)) ==> LockOwner(s, l).Some?
    ensures p == s.current ==> Obj(s, l) == Lock(Some(p))
  {
    hide Reached, PipeInv, FamilyInv, TtyInv, ParksAgree;
    ReachedInv(s);
    assert ParksAgree(s, s.current);
    ParkedNot(s, s.current);
    if p in Q(s, ObjectQ(l)) {
      QueuedRight(s, l, p);
    }
  }

  // ---------- no lost wake-ups ----------

  /** Nobody sleeps while what it waits for is there. */
  lemma NoLostWakeUps(s: Kernel, p: Pid)
    requires Reached(s) && p in s.procs
    ensures forall id: nat :: p in Q(s, ObjectQ(id)) && Obj(s, id).Pipe? ==> Obj(s, id).buf == []
    ensures s.procs[p].waitingForChild ==> s.procs[p].kin.children != [] && FirstZombie(s, s.procs[p].kin.children).None?
    ensures forall t: nat :: p in Q(s, ReadQ(t)) ==> Term(s, t).inputQueue == []
    ensures forall id: nat :: p in Q(s, ObjectQ(id)) ==> !Obj(s, id).Free?
  {
    hide Reached, PlaceInv, LockInv, FamilyInv, PipeInv, TtyInv;
    ReachedInv(s);
    forall t: nat | p in Q(s, ReadQ(t)) ensures Term(s, t).inputQueue == [] {
      NoInputWaits(s, t);
    }
    if s.procs[p].waitingForChild {
      WaitsForLiving(s, p);
    }
    forall id: nat | p in Q(s, ObjectQ(id)) ensures WaitsRight(s, p, id) {
      QueuedRight(s, id, p);
    }
  }

  lemma NoInputWaits(s: Kernel, t: nat)
    requires TtyInv(s) && Q(s, ReadQ(t)) != []
    ensures Term(s, t).inputQueue == []
  {
    hide WriterRight, StreamRight;
    if t < |s.terms| {
      TtyProofs.TerminalOf(s, t);
    }
  }

  lemma WaitsForLiving(s: Kernel, p: Pid)
    requires FamilyInv(s) && p in s.procs && s.procs[p].waitingForChild
    ensures s.procs[p].kin.children != [] && FirstZombie(s, s.procs[p].kin.children).None?
  {
    NoZombie(s, s.procs[p].kin.children);
    forall c | c in s.procs[p].kin.children ensures !Proc(s, c).state.Zombie? {
      assert HasChild(s, p, c);
    }
  }

  // ---------- terminals ----------

  /**
   * The output of a terminal is the accepted writes in the order of the calls: what was sent, the rest of
   * the write in flight and the queued writes. A terminal is busy exactly while it has a writer.
   */
  lemma OutputIsFifo(s: Kernel, t: nat)
    requires Inv(s) && t < |s.terms|
    ensures Flatten(Term(s, t).sent) + Rest(s, t) + Pending(s, Q(s, WriteQ(t))) == Term(s, t).accepted
    ensures Term(s, t).busy <==> Term(s, t).writer.Some?
    ensures Term(s, t).writer.None? ==> Q(s, WriteQ(t)) == []
    ensures forall k :: 0 <= k < |Term(s, t).sent| ==> 1 <= |Term(s, t).sent[k]| <= TERMINAL_MAX_LINE
  {
    hide PlaceInv, LockInv, PipeInv, FamilyInv, TtyInv, Pending, Rest;
    TtyProofs.TerminalOf(s, t);
  }
}
