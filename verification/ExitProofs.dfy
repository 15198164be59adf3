/** ProcessExitCurrent keeps the invariant. */
module ExitProofs {
  import opened Common
  import opened KernelState
  import opened KernelSteps
  import opened KernelInvariants
  import opened PlaceProofs
  import ScheduleProofs
  import opened OperationPlaces
  import opened LockProofs
  import opened IpcProofs
  import opened LifeProofs

  // ---------- orphaning the children ----------

  function OrphanPcb(pcb: Pcb, isParent: bool, isChild: bool): Pcb {
    var pcb1 := if isParent then pcb.WithChildren([]) else pcb;
    if isChild then pcb1.WithParent(None) else pcb1
  }

  ghost predicate Orphaned(s: Kernel, p: Pid, s': Kernel) {
    && s' == s.(procs := s'.procs) && s'.procs.Keys == s.procs.Keys
    && (forall x :: x in s.procs ==> s'.procs[x] == OrphanPcb(s.procs[x], x == p, x in Proc(s, p).kin.children))
  }

  lemma {:induction false} OrphanIs(s: Kernel, p: Pid)
    requires p in s.procs && forall c :: c in s.procs[p].kin.children ==> c in s.procs
    ensures Orphaned(s, p, Orphan(s, p))
    decreases |Proc(s, p).kin.children|
  {
    var cs := s.procs[p].kin.children;
    if cs != [] {
      var s1 := SetProc(s, p, s.procs[p].WithChildren(cs[1..]));
      var s2 := SetProc(s1, cs[0], Proc(s1, cs[0]).WithParent(None));
      assert cs[0] in cs && forall c :: c in cs <==> c == cs[0] || c in cs[1..];
      assert s2.procs[p].kin.children == cs[1..];
      OrphanIs(s2, p);
      hide Orphan;
      OrphanedStep(s, p, s2, Orphan(s2, p));
    }
  }

  lemma OrphanedStep(s: Kernel, p: Pid, s2: Kernel, s': Kernel)
    requires p in s.procs && s.procs[p].kin.children != [] && Orphaned(s2, p, s')
    requires s2 == s.(procs := s2.procs) && s2.procs.Keys == s.procs.Keys
    requires var cs := s.procs[p].kin.children;
      && cs[0] in s.procs && s2.procs[p].kin.children == cs[1..]
      && (forall c :: c in cs <==> c == cs[0] || c in cs[1..])
      && (forall x :: x in s.procs && x != p && x != cs[0] ==> s2.procs[x] == s.procs[x])
      && (cs[0] != p ==> s2.procs[cs[0]] == s.procs[cs[0]].WithParent(None) && s2.procs[p] == s.procs[p].WithChildren(cs[1..]))
      && (cs[0] == p ==> s2.procs[p] == s.procs[p].WithChildren(cs[1..]).WithParent(None))
    ensures Orphaned(s, p, s')
  {
  }

  lemma OrphanedParts(s: Kernel, s': Kernel)
    requires Orphaned(s, s.current, s')
    ensures SameLocks(s, s') && SameTty(s, s') && Still(s, s')
  {
    assert forall q :: Q(s', q) == Q(s, q);
  }

  lemma OrphanedFamily(s: Kernel, s': Kernel)
    requires FamilyInv(s) && Orphaned(s, s.current, s') && s.current in s.procs && !Cur(s).waitingForChild
    ensures FamilyInv(s') && Cur(s').kin.children == []
  {
    var p := s.current;
    forall q, x ensures HasChild(s', q, x) <==> HasChild(s, q, x) && q != p {
    }
    forall q, x ensures HasParent(s', x, q) <==> HasParent(s, x, q) && !HasChild(s, p, x) {
    }
    forall q, x ensures HasChild(s', q, x) <==> HasParent(s', x, q) {
      assert HasChild(s, q, x) <==> HasParent(s, x, q);
      assert HasChild(s, p, x) <==> HasParent(s, x, p);
    }
    assert KinAgree(s') by {
      assert s'.procs[s'.init].kin.parent.None?;
      forall x | x in s'.procs ensures Unique(s'.procs[x].kin.children) {
        assert Unique(s.procs[x].kin.children);
      }
    }
  }

  lemma OrphanKept(s: Kernel)
    requires Whole(s) && s.current in s.procs
    ensures var s' := Orphan(s, s.current);
      && Whole(s') && Went(s, s', false) && SameTty(s, s') && Orphaned(s, s.current, s')
      && Cur(s').kin.children == []
  {
    hide PlaceInv, LockInv, PipeInv, KinAgree, ZombiesRight, ParentsRight, Went, Still, SameLocks, SameTty;
    assert forall c :: c in Cur(s).kin.children ==> c in s.procs by {
      ChildrenLive(s);
    }
    var s' := Orphan(s, s.current);
    WholeFree(s);
    OrphanIs(s, s.current);
    hide Orphan;
    OrphanedParts(s, s');
    OrphanedFamily(s, s');
    StillWent(s, s');
    LocksKept(s, s');
    PipesKept(s, s');
    WentPlaces(s, s');
  }

  lemma WentPlaces(s: Kernel, s': Kernel)
    requires Went(s, s', false)
    ensures PlaceInv(s') && s'.current == s.current && s'.idle == s.idle && s'.init == s.init
  {
  }

  lemma ChildrenLive(s: Kernel)
    requires Whole(s)
    ensures s.current in s.procs ==> forall c :: c in Cur(s).kin.children ==> c in s.procs
  {
    if s.current in s.procs {
      forall c | c in Cur(s).kin.children ensures c in s.procs {
        assert HasChild(s, s.current, c);
        assert HasParent(s, c, s.current);
      }
    }
  }

  // ---------- releasing the locks ----------

  /** The locks of the current process are released from index i on. */
  ghost predicate Freed(s: Kernel, i: nat, s': Kernel) {
    && Went(s, s', false) && IpcKept(s, s') && |s'.objects| == |s.objects|
    && Cur(s').cont == Cur(s).cont && Cur(s').kin == Cur(s).kin && Cur(s').state == Cur(s).state
    && (forall j :: i <= j < |s.objects| ==> Obj(s', j) != Lock(Some(s.current)))
    && (forall j :: 0 <= j < i && j < |s.objects| ==> Obj(s', j) == Obj(s, j))
  }

  lemma FreedStep(s: Kernel, i: nat, s1: Kernel, s': Kernel)
    requires i < |s.objects| && Freed(s1, i + 1, s')
    requires Went(s, s1, false) && IpcKept(s, s1) && |s1.objects| == |s.objects|
    requires Cur(s1).cont == Cur(s).cont && Cur(s1).kin == Cur(s).kin && Cur(s1).state == Cur(s).state && s1.current == s.current
    requires forall j: int :: j != i ==> Obj(s1, j) == Obj(s, j)
    requires Obj(s1, i) != Lock(Some(s.current))
    ensures Freed(s, i, s')
  {
    hide PlaceInv, LockInv, PipeInv, Lost, Aside;
    WentTrans(s, s1, s');
    AsideTrans(s, s1, s');
  }

  lemma {:induction false} ReleaseAllKept(s: Kernel, i: nat)
    requires Before(s) && Cur(s).cont.ToUser?
    ensures Freed(s, i, ReleaseAll(s, s.current, i))
    decreases |s.objects| - i
  {
    if i >= |s.objects| {
      AsideRefl(s);
    } else {
      hide PlaceInv, LockInv, PipeInv, Freed, LockRelease;
      AsideRefl(s);
      if Obj(s, i) == Lock(Some(s.current)) {
        LockReleaseKept(s, i);
        var s1 := LockRelease(s, i);
        ReleaseAllKept(s1, i + 1);
        FreedStep(s, i, s1, ReleaseAll(s1, s.current, i + 1));
      } else {
        ReleaseAllKept(s, i + 1);
        FreedStep(s, i, s, ReleaseAll(s, s.current, i + 1));
      }
    }
  }

  // ---------- the zombie ----------

  function Zombified(s: Kernel, status: int): Kernel {
    SetCur(s, Cur(s).(kin := Cur(s).kin.(exitStatus := status), state := Zombie))
  }

  lemma ZombieParks(s: Kernel, s': Kernel)
    requires QueuesAgree(s) && WritersAgree(s) && s.current in s.procs && s' == SetCur(s, Cur(s'))
    requires SameParking(Cur(s), Cur(s'))
    ensures SameParkings(s, s')
  {
    assert forall q :: Q(s', q) == Q(s, q);
  }

  lemma ZombiePlaces(s: Kernel, status: int)
    requires PlaceInv(s) && s.current != s.idle
    ensures var s' := Zombified(s, status);
      PlaceBase(s') && Forward(s, s') && s'.current in s'.procs && !DelayOver(s', s'.current)
  {
    hide QueuesAgree, WritersAgree, ParksAgree, Parks, Unique, SameParkings;
    CurrentFree(s);
    var s' := Zombified(s, status);
    ZombieParks(s, s');
    ParksAgreeKept(s, s');
  }

  lemma ZombieLocks(s: Kernel, status: int)
    requires LockInv(s) && s.current in s.procs && Cur(s).cont.ToUser?
    requires forall j :: 0 <= j < |s.objects| ==> Obj(s, j) != Lock(Some(s.current))
    ensures LockInv(Zombified(s, status))
  {
    var s' := Zombified(s, status);
    assert forall i: int :: Obj(s', i) == Obj(s, i);
    assert s.current in s.procs ==> forall l: nat :: Obj(s, l) != Lock(Some(s.current));
  }

  /** The parent of the process that exits, if it is blocked in Wait. */
  function WaitingParent(s: Kernel): Option<Pid> {
    match Cur(s).kin.parent
    case Some(q) => if Proc(s, q).waitingForChild then Some(q) else None
    case None => None
  }

  function ParentWoken(s: Kernel): Kernel {
    match WaitingParent(s)
    case Some(q) => MakeReady(s, q, Proc(s, q).(waitingForChild := false))
    case None => s
  }

  lemma WaitingParks(s: Kernel, q: Pid)
    requires PlaceBase(s) && q in s.procs && s.procs[q].waitingForChild
    ensures var s' := SetProc(s, q, s.procs[q].(waitingForChild := false));
      && QueuesAgree(s') && WritersAgree(s') && Parks(s', q) == 0 && s.procs[q].state.Blocked?
      && (forall x :: x in s.procs && x != q ==> Parks(s', x) == Parks(s, x))
  {
    hide ReadyAgrees, RunningAgrees, Unique;
    var s' := SetProc(s, q, s.procs[q].(waitingForChild := false));
    assert ParksAgree(s, q);
    assert forall r :: Q(s', r) == Q(s, r);
    assert forall t :: Term(s', t) == Term(s, t);
  }

  lemma ParentWokenPlaces(s: Kernel)
    requires PlaceBase(s) && Cur(s).state.Zombie?
    requires WaitingParent(s).Some? ==> WaitingParent(s).value in s.procs
    ensures PlaceBase(ParentWoken(s)) && Forward(s, ParentWoken(s))
    ensures WaitingParent(s).None? ==> ParentWoken(s) == s
    ensures WaitingParent(s).Some? ==>
      var q := WaitingParent(s).value;
      && q != s.current
      && ParentWoken(s) == s.(procs := s.procs[q := s.procs[q].(waitingForChild := false, state := Ready)], ready := s.ready + [q])
  {
    hide PlaceBase, MakeReady, Forward;
    if WaitingParent(s).Some? {
      var q := WaitingParent(s).value;
      WaitingParks(s, q);
      MakeReadyPlaces(s, s, q, s.procs[q].(waitingForChild := false));
      WokenForward(s, ParentWoken(s), [q]);
    } else {
      ForwardRefl(s);
    }
  }

  lemma ForwardRefl(s: Kernel)
    ensures Forward(s, s)
  {
  }

  /** Exit, its loops done, in terms of the functions above. */
  lemma ExitIs(s: Kernel, status: int)
    ensures var s1 := ReleaseAll(Orphan(s, s.current), s.current, 0);
      s1.current == s.current ==> Exit(s, status) == Schedule(ParentWoken(Zombified(s1, status)))
  {
    hide Schedule, ReleaseAll, Orphan, MakeReady;
  }

  lemma ExitFamily(s: Kernel, status: int, s': Kernel)
    requires FamilyInv(s) && s.current in s.procs && Cur(s).cont.ToUser? && Cur(s).kin.children == [] && !Cur(s).waitingForChild
    requires s'.init == s.init && s'.procs.Keys == s.procs.Keys
    requires s'.procs[s.current] == Cur(s).(kin := Cur(s).kin.(exitStatus := status), state := Zombie)
    requires forall p :: p in s.procs && p != s.current ==>
      && s'.procs[p].kin == s.procs[p].kin && s'.procs[p].cont == s.procs[p].cont
      && (s'.procs[p].state.Zombie? ==> s.procs[p].state.Zombie?)
      && (s'.procs[p].waitingForChild ==> s.procs[p].waitingForChild && !HasParent(s, s.current, p))
    ensures FamilyInv(s')
  {
    hide Unique;
    forall q, x ensures HasChild(s', q, x) == HasChild(s, q, x) && HasParent(s', x, q) == HasParent(s, x, q) {
    }
    forall p, c | HasChild(s', p, c) && s'.procs[p].waitingForChild ensures !Proc(s', c).state.Zombie? {
      assert HasChild(s, p, c);
      assert HasParent(s, c, p);
    }
  }

  /** The parent's PCB may change, the rest of the exit is done: only kin, waiting and states differ. */
  lemma ExitSettled(s: Kernel, status: int, s': Kernel)
    requires FamilyInv(s) && LockInv(s) && PipeInv(s) && s.current in s.procs
    requires Cur(s).cont.ToUser? && Cur(s).kin.children == [] && !Cur(s).waitingForChild
    requires forall j :: 0 <= j < |s.objects| ==> Obj(s, j) != Lock(Some(s.current))
    requires WaitingParent(Zombified(s, status)).None? ==> s' == Zombified(s, status)
    requires WaitingParent(Zombified(s, status)).Some? ==>
      var z := Zombified(s, status);
      var q := WaitingParent(z).value;
      && q in z.procs && q != s.current && z.procs[q].state.Blocked?
      && s' == z.(procs := z.procs[q := z.procs[q].(waitingForChild := false, state := Ready)], ready := z.ready + [q])
    ensures LockInv(s') && PipeInv(s') && FamilyInv(s') && SameTty(s, s')
  {
    hide LockInv, PipeInv, FamilyInv;
    var z := Zombified(s, status);
    ZombieLocks(s, status);
    assert SameLocks(z, s');
    LocksKept(z, s');
    PipesKept(s, s');
    assert forall q :: Q(s', q) == Q(s, q);
    assert SameTty(s, s');
    assert forall p :: p in s.procs && p != s.current && s'.procs[p].waitingForChild ==> !HasParent(s, s.current, p);
    hide SameTty, SameLocks;
    ExitFamily(s, status, s');
  }

  lemma WaitingParentLives(s: Kernel, status: int)
    requires FamilyInv(s) && PlaceBase(s) && s.current in s.procs && !Cur(s).state.Blocked?
    ensures var z := Zombified(s, status);
      WaitingParent(z).Some? ==>
        var q := WaitingParent(z).value;
        q in z.procs && q != s.current && z.procs[q].state.Blocked? && z.procs[q] == s.procs[q]
  {
    var z := Zombified(s, status);
    if WaitingParent(z).Some? {
      var q := WaitingParent(z).value;
      assert HasParent(s, s.current, q);
      assert HasChild(s, q, s.current);
      assert ParksAgree(s, q);
    }
  }

  lemma AsideFamily(s: Kernel, s': Kernel)
    requires FamilyInv(s) && Aside(s, s') && s.current in s.procs && s'.current == s.current
    ensures FamilyInv(s') && SameTty(s, s') && Cur(s').waitingForChild == Cur(s).waitingForChild
  {
    hide FamilyInv;
    FamilyKept(s, s');
  }

  lemma ExitScheduled(s: Kernel, s1: Kernel, s': Kernel)
    requires PlaceInv(s) && PlaceBase(s1) && Forward(s, s1) && Cur(s1).state.Zombie? && !DelayOver(s1, s1.current)
    requires s' == Schedule(s1)
    ensures Went(s, s', true) && ScheduleFrame(s1, s') && Proc(s', s.current).state.Zombie?
    ensures Proc(s', s.current).kin == Cur(s1).kin && s.current in s'.procs
  {
    hide PlaceInv, Schedule, Lost;
    assert s1.current in s1.procs;
    hide PlaceBase;
    ScheduleProofs.SchedulePlaces(s1);
    ScheduleLoses(s1);
    assert SameButSchedule(s1.procs[s.current], s'.procs[s.current]);
    WentRefl(s);
    ScheduleIds(s1, s');
    hide ScheduleFrame;
    assert forall p :: Lost(s, p) <==> Lost(s', p);
    WentScheduled(s, s, s1, s');
  }

  lemma ExitEnds(s: Kernel, status: int)
    requires PlaceInv(s) && LockInv(s) && PipeInv(s) && FamilyInv(s) && s.current != s.idle
    requires Cur(s).cont.ToUser? && Cur(s).kin.children == []
    requires forall j :: 0 <= j < |s.objects| ==> Obj(s, j) != Lock(Some(s.current))
    ensures var s' := Schedule(ParentWoken(Zombified(s, status)));
      && Went(s, s', true) && LockInv(s') && PipeInv(s') && FamilyInv(s') && SameTty(s, s')
      && s.current in s'.procs && s'.procs[s.current].state.Zombie? && s'.procs[s.current].kin.exitStatus == status
  {
    hide PlaceInv, PlaceBase, LockInv, PipeInv, FamilyInv, Went, SameTty, Forward, ScheduleFrame, Schedule,
      ParentWoken;
    CurrentFree(s);
    PlaceBaseOf(s);
    var z := Zombified(s, status);
    ZombiePlaces(s, status);
    WaitingParentLives(s, status);
    ParentWokenPlaces(z);
    var s1 := ParentWoken(z);
    ForwardTrans(s, z, s1);
    ExitSettled(s, status, s1);
    ZombieStays(z, s1);
    ExitScheduled(s, s1, Schedule(s1));
    ScheduleLife(s1, Schedule(s1));
    SameTtyTrans(s, s1, Schedule(s1));
  }

  lemma ZombieStays(z: Kernel, s1: Kernel)
    requires z.current in z.procs && Cur(z).state.Zombie?
    requires WaitingParent(z).None? ==> s1 == z
    requires WaitingParent(z).Some? ==>
      var q := WaitingParent(z).value;
      && q in z.procs && q != z.current
      && s1 == z.(procs := z.procs[q := z.procs[q].(waitingForChild := false, state := Ready)], ready := z.ready + [q])
    ensures Cur(s1) == Cur(z) && !DelayOver(s1, s1.current)
  {
  }

  lemma WentOn(s: Kernel, s1: Kernel, s': Kernel)
    requires Went(s, s1, false) && Went(s1, s', true)
    ensures Went(s, s', true)
  {
    hide PlaceInv, Lost;
    assert s.ready != [] ==> s1.ready != [] && s1.ready[0] == s.ready[0] && s.ready[1..] <= s1.ready[1..];
  }

  lemma ExitKept(s: Kernel, status: int)
    requires Whole(s) && Cur(s).cont.ToUser? && s.current != s.idle
    ensures var s' := Exit(s, status);
      && Went(s, s', true) && LifeKept(s, s')
      && s.current in s'.procs && s'.procs[s.current].state.Zombie? && s'.procs[s.current].kin.exitStatus == status
  {
    hide PlaceInv, LockInv, PipeInv, FamilyInv, Went, SameTty, Aside, Exit, Schedule, Orphan, ReleaseAll, Zombified,
      ParentWoken;
    WholeFree(s);
    OrphanKept(s);
    var s1 := Orphan(s, s.current);
    WentPlaces(s, s1);
    assert Cur(s1).cont == Cur(s).cont;
    ReleaseAllKept(s1, 0);
    var s2 := ReleaseAll(s1, s.current, 0);
    WentPlaces(s1, s2);
    AsideFamily(s1, s2);
    WentTrans(s, s1, s2);
    ExitEnds(s2, status);
    ExitIs(s, status);
    SameTtyTrans(s, s1, s2);
    SameTtyTrans(s, s2, Exit(s, status));
    WentOn(s, s2, Exit(s, status));
  }
}
