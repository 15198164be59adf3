/** Fork, Exit, Wait, Delay and the clock trap keep the invariant. */
module LifeProofs {
  import opened Common
  import opened KernelState
  import opened KernelSteps
  import opened KernelInvariants
  import opened PlaceProofs
  import ScheduleProofs
  import opened OperationPlaces
  import opened LockProofs
  import opened IpcProofs

  lemma FamilyKept(s: Kernel, s': Kernel)
    requires FamilyInv(s) && SameFamily(s, s')
    ensures FamilyInv(s')
  {
    forall p, c ensures HasChild(s', p, c) == HasChild(s, p, c) && HasParent(s', c, p) == HasParent(s, c, p) {
    }
    hide Unique;
  }

  /** What these steps keep, besides what Went says. */
  ghost predicate LifeKept(s: Kernel, s': Kernel) {
    LockInv(s') && PipeInv(s') && FamilyInv(s') && SameTty(s, s')
  }

  ghost predicate Whole(s: Kernel) {
    Before(s) && FamilyInv(s)
  }

  lemma IpcIsLife(s: Kernel, s': Kernel)
    requires FamilyInv(s) && IpcKept(s, s')
    ensures LifeKept(s, s')
  {
    hide FamilyInv, SameFamily;
    FamilyKept(s, s');
  }

  // ---------- the clock ----------

  lemma ScheduleLife(s: Kernel, s': Kernel)
    requires LockInv(s) && PipeInv(s) && FamilyInv(s) && ScheduleFrame(s, s')
    ensures LifeKept(s, s')
  {
    hide LockInv, PipeInv, FamilyInv, SameFamily;
    ScheduleObjects(s, s');
    ScheduleLocks(s, s');
    ScheduleAside(s, s');
    PipesKept(s, s');
    FamilyKept(s, s');
  }

  lemma TickFrames(s: Kernel, s1: Kernel)
    requires s1 == s.(clock := s.clock + 1)
    ensures SameParkings(s, s1) && SameLocks(s, s1) && SameFamily(s, s1) && SameTty(s, s1)
    ensures forall p :: Lost(s1, p) <==> Lost(s, p)
  {
    assert forall q :: Q(s1, q) == Q(s, q);
  }

  lemma TickLife(s: Kernel, s1: Kernel)
    requires Whole(s) && s1 == s.(clock := s.clock + 1)
    ensures PlaceBase(s1) && LockInv(s1) && PipeInv(s1) && FamilyInv(s1) && SameTty(s, s1)
    ensures !DelayOver(s1, s1.current)
  {
    hide PlaceInv, PlaceBase, LockInv, PipeInv, FamilyInv, SameParkings, SameLocks, SameFamily, SameTty;
    CurrentFree(s);
    PlaceBaseOf(s);
    TickFrames(s, s1);
    PlacesKept(s, s1);
    LocksKept(s, s1);
    PipesKept(s, s1);
    FamilyKept(s, s1);
  }

  lemma ClockKept(s: Kernel)
    requires Whole(s)
    ensures var s' := Clock(s);
      && PlaceInv(s') && LifeKept(s, s') && s'.idle == s.idle && s'.init == s.init
      && (s.ready != [] ==> s'.current == s.ready[0] && s.ready[1..] <= s'.ready)
      && (forall p :: Lost(s', p) <==> Lost(s, p) || (p == s.current && p != s.idle && Cur(s).state.Ready?))
      && ScheduleProofs.Scheduled(s.(clock := s.clock + 1), s')
  {
    hide Whole, PlaceBase, PlaceInv, LockInv, PipeInv, FamilyInv, Schedule, SameParkings, SameLocks, SameFamily,
      SameTty, Lost, ScheduleFrame;
    var s1 := s.(clock := s.clock + 1);
    TickLife(s, s1);
    TickFrames(s, s1);
    ScheduleProofs.SchedulePlaces(s1);
    ScheduleLoses(s1);
    ScheduleLife(s1, Schedule(s1));
    SameTtyTrans(s, s1, Schedule(s1));
    ScheduleIds(s1, Schedule(s1));
  }

  lemma ScheduleIds(s: Kernel, s': Kernel)
    requires ScheduleFrame(s, s')
    ensures s'.idle == s.idle && s'.init == s.init
  {
  }

  lemma SameTtyTrans(s: Kernel, s': Kernel, s'': Kernel)
    requires SameTty(s, s') && SameTty(s', s'')
    ensures SameTty(s, s'')
  {
    forall p ensures SameTtyPart(Proc(s, p), Proc(s'', p)) {
      assert SameTtyPart(Proc(s, p), Proc(s', p)) && SameTtyPart(Proc(s', p), Proc(s'', p));
    }
  }

  // ---------- Delay, and blocking in Wait ----------

  /** A PCB that parks the current process by a delay or by waiting for a child. */
  predicate ParkingPcb(s: Kernel, pcb: Pcb) {
    && pcb == Cur(s).(state := Blocked, cont := pcb.cont, delayUntil := pcb.delayUntil,
                      waitingForChild := pcb.waitingForChild, user := pcb.user)
    && pcb.user.held == Cur(s).user.held && (pcb.cont.InDelay? || pcb.cont.InWait?)
    && (if pcb.waitingForChild then pcb.delayUntil == 0 && pcb.kin.children != [] && FirstZombie(s, pcb.kin.children).None?
        else pcb.delayUntil > s.clock)
  }

  lemma ParkKept(s: Kernel, pcb: Pcb)
    requires Whole(s) && (Cur(s).cont.ToUser? || Cur(s).cont.InWait?) && s.current != s.idle && ParkingPcb(s, pcb)
    ensures var s' := Schedule(SetCur(s, pcb));
            Went(s, s', true) && LifeKept(s, s') && Proc(s', s.current) == pcb
  {
    hide PlaceBase, PlaceInv, LockInv, PipeInv, FamilyInv, Schedule, Forward, Went, ScheduleFrame, SameTty;
    CurrentFree(s);
    var s1 := SetCur(s, pcb);
    var s' := Schedule(s1);
    ParkBase(s, pcb);
    ParkScheduled(s, s1);
    WentRefl(s);
    WentScheduled(s, s, s1, s');
    ParkFamily(s, pcb);
    CurrentMovesOn(s, s1);
    PipesKept(s, s1);
    CurrentTty(s, s1);
    ScheduleLife(s1, s');
    SameTtyTrans(s, s1, s');
  }

  lemma WentRefl(s: Kernel)
    requires PlaceInv(s)
    ensures Went(s, s, false)
  {
  }

  lemma CurrentTty(s: Kernel, s': Kernel)
    requires s' == SetCur(s, Cur(s')) && SameTtyPart(Cur(s), Cur(s')) && s.current in s.procs
    ensures SameTty(s, s')
  {
  }

  lemma ParkFacts(s: Kernel, s': Kernel)
    requires QueuesAgree(s) && WritersAgree(s) && s.current in s.procs && s' == SetCur(s, Cur(s'))
    requires Cur(s').blockQueue == Cur(s).blockQueue && Cur(s').ttyId == Cur(s).ttyId
    ensures QueuesAgree(s') && WritersAgree(s')
    ensures forall x :: x in s.procs && x != s.current ==> Parks(s', x) == Parks(s, x)
    ensures IsWriter(s', s.current) == IsWriter(s, s.current)
  {
    assert forall q :: Q(s', q) == Q(s, q);
    assert forall t :: Term(s', t) == Term(s, t);
  }

  lemma ParkBase(s: Kernel, pcb: Pcb)
    requires PlaceInv(s) && s.current != s.idle && s.current in s.procs
    requires pcb.state.Blocked? && pcb.blockQueue == Cur(s).blockQueue && pcb.ttyId == Cur(s).ttyId
    requires pcb.waitingForChild <==> pcb.delayUntil == 0
    ensures PlaceBase(SetCur(s, pcb)) && Forward(s, SetCur(s, pcb))
  {
    hide QueuesAgree, WritersAgree, ReadyAgrees, RunningAgrees, ParksAgree, IsWriter, Forward;
    CurrentFree(s);
    ParkFacts(s, SetCur(s, pcb));
    ParkedPlaces(s, SetCur(s, pcb));
  }

  lemma {:induction false} NoZombie(s: Kernel, cs: seq<Pid>)
    ensures FirstZombie(s, cs).None? <==> forall c :: c in cs ==> !Proc(s, c).state.Zombie?
    ensures FirstZombie(s, cs).Some? ==> FirstZombie(s, cs).value in cs && Proc(s, FirstZombie(s, cs).value).state.Zombie?
  {
    if cs != [] {
      NoZombie(s, cs[1..]);
      assert forall c :: c in cs <==> c == cs[0] || c in cs[1..];
    }
  }

  lemma ParkFamily(s: Kernel, pcb: Pcb)
    requires FamilyInv(s) && s.current in s.procs && !Cur(s).state.Zombie?
    requires pcb.kin == Cur(s).kin && pcb.state.Blocked?
    requires pcb.waitingForChild ==> pcb.kin.children != [] && FirstZombie(s, pcb.kin.children).None?
    ensures FamilyInv(SetCur(s, pcb))
  {
    hide Unique, FirstZombie;
    NoZombie(s, pcb.kin.children);
    var s' := SetCur(s, pcb);
    assert forall p, c :: HasChild(s', p, c) == HasChild(s, p, c) && HasParent(s', c, p) == HasParent(s, c, p);
  }

  lemma ReturnLife(s: Kernel, r: int)
    requires Whole(s) && !Cur(s).cont.InAcquire? && !TtyCont(Cur(s).cont)
    ensures var s' := Return(s, r); Went(s, s', Blocks(s, s')) && LifeKept(s, s')
  {
    hide Before, FamilyInv, LifeKept, Went, IpcKept;
    ReturnKept(s, r);
    IpcIsLife(s, Return(s, r));
  }

  lemma DelayKept(s: Kernel, ticks: int)
    requires Whole(s) && Cur(s).cont.ToUser?
    ensures var s' := Delay(s, ticks); Went(s, s', Blocks(s, s')) && LifeKept(s, s')
  {
    hide Before, FamilyInv, LifeKept, Went, Schedule;
    if ticks > 0 && s.current != s.idle {
      assert !Cur(s).waitingForChild by { WholeFree(s); }
      ParkKept(s, Cur(s).(delayUntil := s.clock + ticks, state := Blocked, cont := InDelay).Returning(SUCCESS));
    } else {
      ReturnLife(s, ERROR);
      ReturnLife(s, SUCCESS);
    }
  }

  lemma WholeFree(s: Kernel)
    requires Whole(s)
    ensures !Cur(s).waitingForChild && Cur(s).delayUntil == 0 && s.current in s.procs && s.idle in s.procs
    ensures !Cur(s).state.Zombie? && !Cur(s).state.Blocked? && s.current !in s.ready && Cur(s).blockQueue.None?
  {
    CurrentFree(s);
  }

  // ---------- reaping a child ----------

  /** s' is s without process c, and perhaps with other kin and user-visible words of the current process. */
  ghost predicate Removed(s: Kernel, c: Pid, s': Kernel) {
    && s' == s.(procs := s'.procs) && s'.procs.Keys == s.procs.Keys - {c} && c != s.current
    && (forall p :: p in s'.procs && p != s.current ==> s'.procs[p] == s.procs[p])
    && (s.current in s'.procs ==> s'.procs[s.current] == Cur(s).(kin := Cur(s').kin, user := Cur(s').user) && Cur(s').user.held == Cur(s).user.held)
  }

  lemma RemovedParks(s: Kernel, c: Pid, s': Kernel)
    requires QueuesAgree(s) && WritersAgree(s) && Removed(s, c, s') && c in s.procs && Parks(s, c) == 0
    ensures QueuesAgree(s') && WritersAgree(s')
    ensures forall p :: p in s'.procs ==> Parks(s', p) == Parks(s, p)
  {
    hide Unique;
    assert forall q :: Q(s', q) == Q(s, q);
    assert forall t :: Term(s', t) == Term(s, t);
  }

  lemma RemovedReady(s: Kernel, c: Pid, s': Kernel)
    requires ReadyAgrees(s) && RunningAgrees(s) && Removed(s, c, s') && c in s.procs && s.procs[c].state.Zombie?
    ensures ReadyAgrees(s') && RunningAgrees(s')
    ensures s'.current in s'.procs && Cur(s').state == Cur(s).state
    ensures forall p :: Lost(s, p) <==> Lost(s', p)
    ensures forall p :: p in s'.procs ==> s'.procs[p].delayUntil == s.procs[p].delayUntil && s'.procs[p].state == s.procs[p].state
  {
    hide Unique;
  }

  lemma RemovedPlaces(s: Kernel, c: Pid, s': Kernel)
    requires PlaceInv(s) && Removed(s, c, s') && c in s.procs && s.procs[c].state.Zombie?
    ensures Went(s, s', false)
  {
    hide QueuesAgree, WritersAgree, ReadyAgrees, RunningAgrees, Parks, IsWriter, Lost;
    assert ParksAgree(s, c);
    RemovedReady(s, c, s');
    RemovedParks(s, c, s');
    RemovedIds(s, c, s');
    hide Removed;
    forall p | p in s'.procs ensures ParksAgree(s', p) {
      assert ParksAgree(s, p);
    }
  }

  lemma RemovedIds(s: Kernel, c: Pid, s': Kernel)
    requires Removed(s, c, s')
    ensures s' == s.(procs := s'.procs) && forall p :: p in s'.procs ==> p in s.procs
  {
  }

  lemma RemovedLocks(s: Kernel, c: Pid, s': Kernel)
    requires LockInv(s) && Removed(s, c, s') && c in s.procs && s.procs[c].state.Zombie?
    ensures LockInv(s')
  {
    assert forall i: int :: Obj(s', i) == Obj(s, i);
  }

  lemma RemovedTty(s: Kernel, c: Pid, s': Kernel)
    requires Removed(s, c, s') && c in s.procs && s.procs[c].cont.ToUser? && s.current in s.procs
    ensures SameTty(s, s')
  {
    assert forall q :: Q(s', q) == Q(s, q);
  }

  lemma RemovedFamily(s: Kernel, c: Pid, s': Kernel)
    requires FamilyInv(s) && Removed(s, c, s') && c in s.procs && HasChild(s, s.current, c) && s.procs[c].kin.children == []
    requires !Cur(s).waitingForChild && !Cur(s).state.Zombie?
    requires Cur(s').kin == Cur(s).kin.(children := Without(Cur(s).kin.children, c))
    ensures FamilyInv(s')
  {
    WithoutMembers(Cur(s).kin.children, c);
    hide Unique;
    forall p, x ensures HasChild(s', p, x) <==> HasChild(s, p, x) && x != c && p != c {
      if p == s.current {
        assert x in Cur(s').kin.children <==> x in Cur(s).kin.children && x != c;
      } else if x == c && HasChild(s, p, c) {
        assert HasParent(s, c, p);
      }
    }
    forall p, x ensures HasParent(s', x, p) <==> HasParent(s, x, p) && x != c {
    }
    forall p, x ensures HasChild(s', p, x) <==> HasParent(s', x, p) {
      assert HasChild(s, p, x) <==> HasParent(s, x, p);
    }
    assert HasParent(s, c, s.current);
  }

  lemma DestroyIs(s: Kernel, c: Pid)
    requires c in s.procs && s.procs[c].kin == Kin(Some(s.current), [], s.procs[c].kin.exitStatus) && c != s.current
    requires c !in s.ready && s.procs[c].blockQueue.None?
    ensures Destroy(s, c) ==
            s.(procs := s.procs[s.current := Cur(s).WithChildren(Without(Cur(s).kin.children, c))] - {c})
  {
    WithoutAbsent(s.ready, c);
  }

  lemma ZombieChild(s: Kernel, c: Pid)
    requires Whole(s) && HasChild(s, s.current, c) && Proc(s, c).state.Zombie?
    ensures c in s.procs && s.procs[c].kin == Kin(Some(s.current), [], s.procs[c].kin.exitStatus) && c != s.current
    ensures c !in s.ready && s.procs[c].blockQueue.None? && s.procs[c].cont.ToUser?
  {
    CurrentFree(s);
    assert HasParent(s, c, s.current);
    assert ParksAgree(s, c);
  }

  /** What reaping child c leaves of the state. */
  function Reaped(s: Kernel, c: Pid, wantStatus: bool): Kernel {
    var pcb := Cur(s).WithChildren(Without(Cur(s).kin.children, c)).Returning(c);
    var user := if wantStatus then pcb.user.(stored := Proc(s, c).kin.exitStatus) else pcb.user;
    s.(procs := s.procs[s.current := pcb.(user := user, cont := ToUser)] - {c})
  }

  lemma WaitReapIs(s: Kernel, c: Pid, wantStatus: bool)
    requires c in s.procs && s.procs[c].kin == Kin(Some(s.current), [], s.procs[c].kin.exitStatus) && c != s.current
    requires c !in s.ready && s.procs[c].blockQueue.None? && s.current in s.procs
    requires s.current != s.idle && FirstZombie(s, Cur(s).kin.children) == Some(c)
    ensures Wait(s, wantStatus) == Reaped(s, c, wantStatus)
  {
    hide FirstZombie, Destroy;
    var s1 := if wantStatus then SetCur(s, Cur(s).(user := Cur(s).user.(stored := Proc(s, c).kin.exitStatus))) else s;
    DestroyIs(s1, c);
    assert Wait(s, wantStatus).procs == Reaped(s, c, wantStatus).procs;
  }

  lemma ReapedKept(s: Kernel, c: Pid, wantStatus: bool)
    requires Whole(s) && HasChild(s, s.current, c) && Proc(s, c).state.Zombie? && (Cur(s).cont.ToUser? || Cur(s).cont.InWait?)
    ensures var s' := Reaped(s, c, wantStatus); Went(s, s', false) && LifeKept(s, s') && !Blocks(s, s')
  {
    hide PlaceInv, LockInv, PipeInv, FamilyInv, SameTty;
    ZombieChild(s, c);
    WholeFree(s);
    var s0 := SetCur(s, Cur(s).(cont := ToUser));
    assert s0 == Finish(s, Cur(s), Cur(s).user.result);
    ReturnLife(s, Cur(s).user.result);
    var s' := Reaped(s, c, wantStatus);
    assert Removed(s0, c, s');
    hide Reaped, Removed, Finish;
    RemovedPlaces(s0, c, s');
    RemovedLocks(s0, c, s');
    RemovedTty(s0, c, s');
    RemovedFamily(s0, c, s');
    PipesKept(s0, s');
    SameTtyTrans(s, s0, s');
    WentTrans(s, s0, s');
  }

  lemma WaitKept(s: Kernel, wantStatus: bool)
    requires Whole(s) && (Cur(s).cont.ToUser? || Cur(s).cont.InWait?)
    ensures var s' := Wait(s, wantStatus); Went(s, s', Blocks(s, s')) && LifeKept(s, s')
  {
    hide Before, FamilyInv, LifeKept, Went, Schedule, Destroy, FirstZombie;
    ReturnLife(s, ERROR);
    WholeFree(s);
    if s.current != s.idle {
      NoZombie(s, Cur(s).kin.children);
      match FirstZombie(s, Cur(s).kin.children)
      case Some(c) =>
        ZombieChild(s, c);
        WaitReapIs(s, c, wantStatus);
        ReapedKept(s, c, wantStatus);
      case None =>
        if Cur(s).kin.children != [] {
          ParkKept(s, Cur(s).(waitingForChild := true, state := Blocked, cont := InWait(wantStatus)));
        }
    }
  }

  lemma ResumeWaitKept(s: Kernel, wantStatus: bool)
    requires Whole(s) && Cur(s).cont == InWait(wantStatus)
    ensures var s' := ResumeWait(s, wantStatus); Went(s, s', Blocks(s, s')) && LifeKept(s, s')
  {
    hide Before, FamilyInv, LifeKept, Went, Wait;
    WholeFree(s);
    assert s.procs[s.current := Cur(s).(waitingForChild := false)] == s.procs;
    WaitKept(s, wantStatus);
  }

  // ---------- Fork ----------

  lemma NewcomerQueues(s: Kernel, s': Kernel, c: Pid)
    requires QueuesAgree(s) && WritersAgree(s) && c !in s.procs && s'.procs.Keys == s.procs.Keys + {c}
    requires s'.queues == s.queues && s'.terms == s.terms && SameParking(BlankPcb, s'.procs[c])
    requires forall p :: p in s.procs ==> SameParking(s.procs[p], s'.procs[p])
    ensures QueuesAgree(s') && WritersAgree(s') && Parks(s', c) == 0
    ensures forall p :: p in s.procs ==> Parks(s', p) == Parks(s, p)
  {
    hide Unique;
    assert forall q :: Q(s', q) == Q(s, q);
    assert forall t :: Term(s', t) == Term(s, t);
  }

  /** The state after a fork that succeeds. */
  function Forked(s: Kernel, c: Pid): Kernel {
    s.(procs := s.procs[c := BlankPcb.WithParent(Some(s.current))]
                       [s.current := Cur(s).WithChildren(Cur(s).kin.children + [c]).(cont := ToUser).Returning(c)],
       ready := s.ready + [c])
  }

  lemma ForkIs(s: Kernel, c: Pid)
    requires s.current in s.procs && s.current != s.idle && c !in s.procs && c !in s.ready && c != s.idle
    ensures Fork(s, c, true, true) == Forked(s, c)
  {
    assert Fork(s, c, true, true).procs == Forked(s, c).procs;
  }

  lemma ForkReady(s: Kernel, c: Pid)
    requires ReadyAgrees(s) && RunningAgrees(s) && c !in s.procs && c < MAX_PROCS
    ensures ReadyAgrees(Forked(s, c)) && RunningAgrees(Forked(s, c))
    ensures forall p :: Lost(s, p) <==> Lost(Forked(s, c), p)
  {
    assert c !in s.ready;
    UniqueSnoc(s.ready, c);
    hide Unique;
  }

  lemma ForkFields(s: Kernel, c: Pid, s': Kernel)
    requires s' == Forked(s, c) && c !in s.procs && s.current in s.procs
    ensures s'.procs.Keys == s.procs.Keys + {c} && c in s'.procs && s'.procs[c] == BlankPcb.WithParent(Some(s.current))
    ensures forall p :: p in s.procs && p != s.current ==> s'.procs[p] == s.procs[p]
    ensures Cur(s') == Cur(s).WithChildren(Cur(s).kin.children + [c]).(cont := ToUser).Returning(c)
    ensures s' == s.(procs := s'.procs, ready := s'.ready)
    ensures forall q :: Q(s', q) == Q(s, q)
  {
  }

  lemma ForkPlaces(s: Kernel, c: Pid)
    requires PlaceInv(s) && c !in s.procs && c < MAX_PROCS
    ensures var s' := Forked(s, c); Went(s, s', false) && !Blocks(s, s')
  {
    hide QueuesAgree, WritersAgree, ReadyAgrees, RunningAgrees, Parks, Lost;
    CurrentFree(s);
    ForkReady(s, c);
    var s' := Forked(s, c);
    ForkFields(s, c, s');
    assert s.ready <= s'.ready;
    hide Forked;
    NewcomerQueues(s, s', c);
    forall p | p in s'.procs ensures ParksAgree(s', p) {
      assert p != c ==> ParksAgree(s, p);
    }
  }

  lemma ForkLocks(s: Kernel, c: Pid, s': Kernel)
    requires LockInv(s) && c !in s.procs && s.current in s.procs && Cur(s).cont.ToUser? && s.idle in s.procs
    requires s' == s.(procs := s'.procs, ready := s'.ready) && s'.procs.Keys == s.procs.Keys + {c}
    requires s'.procs[c] == BlankPcb.WithParent(Some(s.current))
    requires forall p :: p in s.procs && p != s.current ==> s'.procs[p] == s.procs[p]
    requires SameLockPart(Cur(s), Cur(s'))
    ensures LockInv(s')
  {
    assert forall i: int :: Obj(s', i) == Obj(s, i);
  }

  lemma ForkFamily(s: Kernel, c: Pid, s': Kernel)
    requires FamilyInv(s) && c !in s.procs && s.current in s.procs && !Cur(s).waitingForChild && !Cur(s).state.Zombie?
    requires s'.init == s.init && s'.procs.Keys == s.procs.Keys + {c} && s'.procs[c] == BlankPcb.WithParent(Some(s.current))
    requires forall p :: p in s.procs && p != s.current ==> s'.procs[p] == s.procs[p]
    requires s'.current == s.current && Cur(s').kin == Cur(s).kin.(children := Cur(s).kin.children + [c])
    requires Cur(s').waitingForChild == Cur(s).waitingForChild && Cur(s').state == Cur(s).state
    ensures FamilyInv(s')
  {
    assert !HasParent(s, c, s.current);
    assert !HasChild(s, s.current, c);
    UniqueSnoc(Cur(s).kin.children, c);
    hide Unique;
    forall p, x ensures HasChild(s', p, x) <==> HasChild(s, p, x) || (p == s.current && x == c) {
    }
    forall p, x ensures HasParent(s', x, p) <==> HasParent(s, x, p) || (p == s.current && x == c) {
    }
    forall p, x ensures HasChild(s', p, x) <==> HasParent(s', x, p) {
      assert HasChild(s, p, x) <==> HasParent(s, x, p);
    }
  }

  lemma ForkTty(s: Kernel, s': Kernel, c: Pid)
    requires c !in s.procs && s'.terms == s.terms && forall q :: Q(s', q) == Q(s, q)
    requires s'.procs.Keys == s.procs.Keys + {c} && s'.procs[c].cont.ToUser? && s.current in s.procs
    requires forall p :: p in s.procs && p != s.current ==> s'.procs[p] == s.procs[p]
    requires s'.current == s.current && SameTtyPart(Cur(s), Cur(s'))
    ensures SameTty(s, s')
  {
  }

  lemma ForkKept(s: Kernel, c: Pid, made: bool, cloned: bool)
    requires Whole(s) && Cur(s).cont.ToUser? && c !in s.procs && c < MAX_PROCS
    ensures var s' := Fork(s, c, made, cloned); Went(s, s', Blocks(s, s')) && LifeKept(s, s')
  {
    hide PlaceInv, LockInv, PipeInv, FamilyInv, Went, SameTty, Fork, Forked;
    WholeFree(s);
    if s.current == s.idle || !made {
      ReturnLife(s, ERROR);
      assert Fork(s, c, made, cloned) == Return(s, ERROR) by { ForkFails(s, c, made, cloned); }
    } else if cloned {
      NewPidUnused(s, c);
      ForkIs(s, c);
      var s' := Forked(s, c);
      ForkPlaces(s, c);
      ForkFields(s, c, s');
      ForkLocks(s, c, s');
      ForkFamily(s, c, s');
      ForkTty(s, s', c);
      PipesKept(s, s');
    } else {
      NewPidUnused(s, c);
      ForkUndone(s, c);
      ReturnLife(s, ERROR);
    }
  }

  lemma ForkFails(s: Kernel, c: Pid, made: bool, cloned: bool)
    requires s.current == s.idle || !made
    ensures Fork(s, c, made, cloned) == Return(s, ERROR)
  {
  }

  lemma NewPidUnused(s: Kernel, c: Pid)
    requires Whole(s) && c !in s.procs
    ensures c !in s.ready && c != s.idle && c !in Cur(s).kin.children && c != s.current
  {
    CurrentFree(s);
    assert !HasParent(s, c, s.current);
    assert !HasChild(s, s.current, c);
  }

  lemma {:induction false} WithoutLast<T>(xs: seq<T>, x: T)
    requires x !in xs
    ensures Without(xs + [x], x) == xs
  {
    if xs != [] {
      WithoutLast(xs[1..], x);
      assert (xs + [x])[1..] == xs[1..] + [x];
    }
  }

  /** A fork that fails after the child was made leaves no trace of the child. */
  lemma ForkUndone(s: Kernel, c: Pid)
    requires s.current in s.procs && s.current != s.idle && c !in s.procs && c !in s.ready
    requires c !in Cur(s).kin.children
    ensures Fork(s, c, true, false) == Return(s, ERROR)
  {
    var s1 := SetProc(s, c, BlankPcb.WithParent(Some(s.current)));
    var s2 := SetCur(s1, Cur(s1).WithChildren(Cur(s1).kin.children + [c]));
    assert s2.procs[c] == BlankPcb.WithParent(Some(s.current));
    DestroyIs(s2, c);
    WithoutLast(Cur(s).kin.children, c);
    assert Destroy(s2, c).procs == s.procs;
  }
}
