/**
 * What Fork, Wait, Delay, Exit and a tick of the clock answer, and what they do, in any state some run from boot leads to,
 * told in terms of the state before.
 */
module LifeOutcomes {
  import opened Common
  import opened KernelState
  import opened KernelSteps
  import opened KernelInvariants
  import ExitProofs
  import IpcProofs
  import LifeProofs
  import StepTheorems
  import TtyProofs
  import opened RunTheorems
  import opened Outcomes
  import opened IpcOutcomes

  // ---------- fork, wait and delay ----------

  /**
   * Fork fails exactly for the idle process, or if the child or its kernel context cannot be made. Else the parent is
   * answered the child's pid, and the child is last in the ready queue, to go on in its program with the answer 0.
   */
  lemma ForkOutcome(s: Kernel, child: Pid, made: bool, cloned: bool)
    requires Reached(s) && Legal(s, EvFork(child, made, cloned))
    ensures s.current in s.procs && child !in s.procs
    ensures var s', pcb := Step(s, EvFork(child, made, cloned)), s.procs[s.current];
      if s.current == s.idle || !made || !cloned then s' == Answering(s, ERROR)
      else
        var born := Pcb(Ready, ToUser, None, 0, false, 0, Kin(Some(s.current), [], 0), Io(0, None, [], 0, 0), User(0, 0, [], {}));
        var s1 := s.(procs := s.procs[child := born][s.current := pcb.(kin := pcb.kin.(children := pcb.kin.children + [child]))],
                     ready := s.ready + [child]);
        s' == Answering(s1, child)
  {
    hide Reached, Inv, PlaceInv, Restful, Fork, LifeProofs.Whole, IpcProofs.Before, TtyProofs.WholeTty;
    ReachedRests(s);
    ReturnIs(s, ERROR);
    InvParts(s);
    LifeProofs.NewPidUnused(s, child);
    if s.current == s.idle || !made {
      LifeProofs.ForkFails(s, child, made, cloned);
    } else if !cloned {
      LifeProofs.ForkUndone(s, child);
    } else {
      LifeProofs.ForkIs(s, child);
    }
  }

  /** The first zombie in the list of children. */
  ghost predicate FirstDead(s: Kernel, children: seq<Pid>, i: nat) {
    && i < |children| && children[i] in s.procs && s.procs[children[i]].state.Zombie?
    && forall j :: 0 <= j < i && children[j] in s.procs ==> !s.procs[children[j]].state.Zombie?
  }

  lemma {:induction false} FirstDeadIs(s: Kernel, children: seq<Pid>) returns (i: nat)
    ensures FirstZombie(s, children).None? <==> forall j :: 0 <= j < |children| && children[j] in s.procs ==> !s.procs[children[j]].state.Zombie?
    ensures FirstZombie(s, children).Some? ==> FirstDead(s, children, i) && FirstZombie(s, children) == Some(children[i])
  {
    i := 0;
    if children != [] {
      if Proc(s, children[0]).state.Zombie? {
        assert FirstDead(s, children, 0);
      } else {
        var k := FirstDeadIs(s, children[1..]);
        i := k + 1;
        assert forall j :: 0 < j < |children| ==> children[j] == children[1..][j - 1];
        assert forall j :: 0 <= j < |children[1..]| ==> children[1..][j] == children[j + 1];
      }
    }
  }

  /** The first zombie child is gone, its pid is the answer, and its status is stored if asked for. */
  ghost predicate Reaps(s: Kernel, i: nat, want: bool, s': Kernel)
    requires s.current in s.procs && i < |s.procs[s.current].kin.children| && s.procs[s.current].kin.children[i] in s.procs
  {
    var pcb := s.procs[s.current];
    var c := pcb.kin.children[i];
    var rest := pcb.(kin := pcb.kin.(children := pcb.kin.children[..i] + pcb.kin.children[i + 1..]));
    var s1 := s.(procs := s.procs[s.current := rest] - {c});
    c != s.current && s' == Answering(if want then Storing(s1, s.procs[c].kin.exitStatus) else s1, c)
  }

  /** Wait reaps the first zombie child, fails exactly for idle and without children, and else sleeps until one exits. */
  ghost predicate Waits(s: Kernel, want: bool, s': Kernel)
    requires s.current in s.procs
  {
    var pcb := s.procs[s.current];
    if s.current == s.idle || pcb.kin.children == [] then s' == Answering(s, ERROR)
    else if exists i :: FirstDead(s, pcb.kin.children, i) then exists i :: FirstDead(s, pcb.kin.children, i) && Reaps(s, i, want, s')
    else Sleeps(s, pcb.(waitingForChild := true, state := Blocked, cont := InWait(want)), s')
  }

  lemma NobodyDead(s: Kernel, children: seq<Pid>)
    requires forall j :: 0 <= j < |children| && children[j] in s.procs ==> !s.procs[children[j]].state.Zombie?
    ensures !exists i :: FirstDead(s, children, i)
  {
  }

  lemma ChildrenDiffer(s: Kernel)
    requires Inv(s) && s.current in s.procs
    ensures Unique(s.procs[s.current].kin.children)
  {
    hide PlaceInv, LockInv, PipeInv, TtyInv, Unique;
  }

  lemma ReapIs(s: Kernel, i: nat, want: bool)
    requires s.current in s.procs && FirstDead(s, s.procs[s.current].kin.children, i)
    requires Unique(s.procs[s.current].kin.children) && s.procs[s.current].kin.children[i] != s.current
    ensures Reaps(s, i, want, LifeProofs.Reaped(s, s.procs[s.current].kin.children[i], want))
  {
    hide Unique, Without;
    WithoutAt(s.procs[s.current].kin.children, i);
    var s' := LifeProofs.Reaped(s, s.procs[s.current].kin.children[i], want);
    assert s'.procs.Keys == s.procs.Keys - {s.procs[s.current].kin.children[i]};
  }

  lemma WaitsIs(s: Kernel, want: bool)
    requires Inv(s) && PlaceInv(s) && (Cur(s).cont.ToUser? || Cur(s).cont.InWait?)
    ensures s.current in s.procs && Waits(s, want, Wait(s, want))
  {
    hide Inv, PlaceInv, FirstZombie, Restful, Schedule, Sleeps, LifeProofs.Whole, IpcProofs.Before,
      TtyProofs.WholeTty, Destroy, FirstDead;
    RestfulOf(s);
    ReturnIs(s, ERROR);
    NoDelay(s);
    var i := FirstDeadIs(s, s.procs[s.current].kin.children);
    match FirstZombie(s, s.procs[s.current].kin.children) {
      case None =>
        NobodyDead(s, s.procs[s.current].kin.children);
        if s.current != s.idle && s.procs[s.current].kin.children != [] {
          SleepIs(s, s.procs[s.current].(waitingForChild := true, state := Blocked, cont := InWait(want)));
        }
      case Some(c) =>
        StepTheorems.ReapFacts(s, c);
        if s.current != s.idle {
          LifeProofs.WaitReapIs(s, c, want);
          ChildrenDiffer(s);
          ReapIs(s, i, want);
        }
    }
  }

  lemma WaitOutcome(s: Kernel, want: bool)
    requires Reached(s) && Legal(s, EvWait(want))
    ensures s.current in s.procs && Waits(s, want, Step(s, EvWait(want)))
  {
    hide Reached, Inv, PlaceInv, Restful, Wait, Waits;
    ReachedRests(s);
    WaitsIs(s, want);
  }

  lemma WaitResumes(s: Kernel, want: bool)
    requires Reached(s) && Cur(s).cont == InWait(want)
    ensures s.current in s.procs && Waits(s, want, Step(s, EvResume))
  {
    hide Reached, Inv, PlaceInv, Restful, Wait, ResumeWait, Waits, Step;
    ReachedRests(s);
    ResumesAs(s);
    StepTheorems.ResumeWaitIs(s, want);
    WaitsIs(s, want);
  }

  /** Delay fails exactly for a negative count and, if there is something to wait for, the idle process. */
  lemma DelayOutcome(s: Kernel, ticks: int)
    requires Reached(s) && Legal(s, EvDelay(ticks))
    ensures s.current in s.procs
    ensures var s', pcb := Step(s, EvDelay(ticks)), s.procs[s.current];
      if ticks < 0 || (ticks > 0 && s.current == s.idle) then s' == Answering(s, ERROR)
      else if ticks == 0 then s' == Answering(s, SUCCESS)
      else Sleeps(s, pcb.(delayUntil := s.clock + ticks, state := Blocked, cont := InDelay, user := pcb.user.(result := SUCCESS)), s')
  {
    hide Reached, Inv, PlaceInv, Restful, Schedule, Sleeps;
    ReachedRests(s);
    ReturnIs(s, ERROR);
    ReturnIs(s, SUCCESS);
    if ticks > 0 && s.current != s.idle {
      SleepIs(s, s.procs[s.current].(delayUntil := s.clock + ticks, state := Blocked, cont := InDelay).Returning(SUCCESS));
    }
  }

  lemma DelayResumes(s: Kernel)
    requires Reached(s) && Cur(s).cont == InDelay
    ensures s.current in s.procs && Step(s, EvResume) == Answering(s, SUCCESS)
  {
    hide Reached, Inv, PlaceInv, Restful;
    ReachedRests(s);
  }

  // ---------- exit ----------

  /** The children of the caller have no parent, and it has no children. */
  ghost predicate Orphans(s: Kernel, s': Kernel)
    requires s.current in s.procs
  {
    var children := s.procs[s.current].kin.children;
    && s' == s.(procs := s'.procs) && s'.procs.Keys == s.procs.Keys
    && forall p :: p in s.procs ==>
         var kin := s.procs[p].kin;
         s'.procs[p] == s.procs[p].(kin := Kin(if p in children then None else kin.parent, if p == s.current then [] else kin.children, kin.exitStatus))
  }

  /** The caller has given up all locks it owns, from slot i of the table on. */
  function AllGivenUp(s: Kernel, i: nat): Kernel
    requires s.current in s.procs
    decreases |s.objects| - i
  {
    if i >= |s.objects| then s
    else AllGivenUp(if s.objects[i] == Lock(Some(s.current)) then GivenUp(s, i) else s, i + 1)
  }

  lemma {:induction false} AllGivenUpIs(s: Kernel, i: nat)
    requires IpcProofs.Before(s) && Cur(s).cont.ToUser? && s.current != s.idle
    ensures s.current in s.procs && ReleaseAll(s, s.current, i) == AllGivenUp(s, i)
    ensures PlaceInv(AllGivenUp(s, i)) && AllGivenUp(s, i).current == s.current && AllGivenUp(s, i).idle == s.idle
    decreases |s.objects| - i
  {
    hide PlaceInv, LockInv, PipeInv, LockRelease, GivenUp, Restful, Went, IpcProofs.IpcKept;
    RestfulOf(s);
    if i < |s.objects| {
      FirstOther(s, ObjectQ(i));
      if Obj(s, i) == Lock(Some(s.current)) {
        GivenUpIs(s, i);
        IpcProofs.LockReleaseKept(s, i);
        StillBefore(s, LockRelease(s, i), i);
        AllGivenUpIs(GivenUp(s, i), i + 1);
      } else {
        AllGivenUpIs(s, i + 1);
      }
    }
  }

  lemma FirstOther(s: Kernel, q: QueueId)
    requires PlaceInv(s)
    ensures Q(s, q) != [] ==> Q(s, q)[0] != s.current
  {
    hide PlaceInv;
    if Q(s, q) != [] {
      assert Q(s, q)[0] in Q(s, q);
      QueuedSleeps(s, q, Q(s, q)[0]);
    }
  }

  lemma StillBefore(s: Kernel, s': Kernel, l: nat)
    requires Went(s, s', false) && IpcProofs.IpcKept(s, s') && s.current in s.procs && l < |s.objects| && s' == GivenUp(s, l)
    requires Q(s, ObjectQ(l)) != [] ==> Q(s, ObjectQ(l))[0] != s.current
    ensures IpcProofs.Before(s') && s'.current == s.current && s'.idle == s.idle && Cur(s').cont == Cur(s).cont && |s'.objects| == |s.objects|
  {
    hide PlaceInv, LockInv, PipeInv, Lost, IpcProofs.Aside;
  }

  /** The PCB of a process that has exited. */
  function Dead(pcb: Pcb, status: int): Pcb {
    pcb.(kin := pcb.kin.(exitStatus := status), state := Zombie)
  }

  /** A parent that waits for the caller is last in the ready queue. */
  function ParentReady(s: Kernel): Kernel
    requires s.current in s.procs
  {
    var p := s.procs[s.current].kin.parent;
    if p.Some? && p.value in s.procs && s.procs[p.value].waitingForChild then
      s.(procs := s.procs[p.value := s.procs[p.value].(waitingForChild := false, state := Ready)], ready := s.ready + [p.value])
    else s
  }

  /** The children are orphaned, the locks given up, a waiting parent is ready, and the caller is a zombie with its status. */
  ghost predicate Ends(s: Kernel, status: int, s1: Kernel, s': Kernel)
    requires s.current in s.procs
  {
    && Orphans(s, s1) && s1.current in s1.procs
    && var s2 := AllGivenUp(s1, 0);
       && s2.current == s.current && s2.current in s2.procs && Sleeps(ParentReady(s2), Dead(s2.procs[s2.current], status), s')
  }

  lemma OrphansIs(s: Kernel, s': Kernel)
    requires s.current in s.procs && ExitProofs.Orphaned(s, s.current, s')
    ensures Orphans(s, s')
  {
  }

  /** A process that waits for a child sleeps. */
  lemma WaitingSleeps(s: Kernel, q: Pid)
    requires PlaceInv(s) && q in s.procs && s.procs[q].waitingForChild
    ensures q != s.current && q != s.idle && q !in s.ready && s.procs[q].state.Blocked?
  {
    hide QueuesAgree, WritersAgree, Unique;
    assert ParksAgree(s, q);
  }

  lemma ParentRests(s: Kernel)
    requires PlaceInv(s) && s.current != s.idle
    ensures s.current in s.procs && Restful(ParentReady(s)) && s.procs[s.current].delayUntil == 0
  {
    hide PlaceInv;
    RestfulOf(s);
    NoDelayOf(s);
    var p := s.procs[s.current].kin.parent;
    if p.Some? && p.value in s.procs && s.procs[p.value].waitingForChild {
      WaitingSleeps(s, p.value);
    }
  }

  lemma ParentIs(s: Kernel, status: int)
    requires PlaceInv(s) && s.current in s.procs
    ensures ExitProofs.ParentWoken(ExitProofs.Zombified(s, status)) == SetCur(ParentReady(s), Dead(s.procs[s.current], status))
  {
    hide PlaceInv;
    var p := s.procs[s.current].kin.parent;
    if p.Some? && p.value in s.procs && s.procs[p.value].waitingForChild {
      WaitingSleeps(s, p.value);
    }
  }

  /** Exit: the children are orphaned, the locks given up in the order of the table, and the caller ends. */
  lemma ExitOutcome(s: Kernel, status: int)
    requires Reached(s) && Legal(s, EvExit(status))
    ensures s.current in s.procs
    ensures exists s1 :: Ends(s, status, s1, Step(s, EvExit(status)))
  {
    hide Reached, Inv, PlaceInv, LockInv, PipeInv, FamilyInv, Restful, Exit, Orphan, ReleaseAll, Went, SameTty,
      Orphans, AllGivenUp,
      ExitProofs.Orphaned, ExitProofs.ParentWoken, ExitProofs.Zombified, Schedule, Sleeps, ParentReady;
    ReachedRests(s);
    InvParts(s);
    ExitProofs.OrphanKept(s);
    var s1 := Orphan(s, s.current);
    OrphansIs(s, s1);
    SameIds(s, s1);
    AllGivenUpIs(s1, 0);
    var s2 := AllGivenUp(s1, 0);
    ParentRests(s2);
    ExitProofs.ExitIs(s, status);
    ParentIs(s2, status);
    ParentKeeps(s2);
    SleepIs(ParentReady(s2), Dead(s2.procs[s2.current], status));
    assert Ends(s, status, s1, Step(s, EvExit(status)));
  }

  lemma SameIds(s: Kernel, s': Kernel)
    requires s.current in s.procs && Orphans(s, s')
    ensures s'.current == s.current && s'.idle == s.idle && s.current in s'.procs && Cur(s').cont == Cur(s).cont
  {
  }

  lemma ParentKeeps(s: Kernel)
    requires s.current in s.procs
    ensures ParentReady(s).current == s.current && ParentReady(s).clock == s.clock
  {
  }

  // ---------- the clock ----------

  ghost predicate Ascending(ps: seq<Pid>) {
    forall i, j :: 0 <= i < j < |ps| ==> ps[i] < ps[j]
  }

  /** The processes ps whose delay is over are ready, in this order, at the end of the ready queue. */
  ghost predicate Rung(s: Kernel, due: seq<Pid>, s': Kernel) {
    && s' == s.(procs := s'.procs, ready := s.ready + due) && s'.procs.Keys == s.procs.Keys
    && forall p :: p in s.procs ==> s'.procs[p] == if p in due then s.procs[p].(delayUntil := 0, state := Ready) else s.procs[p]
  }

  lemma {:induction false} RungIs(s: Kernel, i: nat) returns (due: seq<Pid>)
    requires forall p :: DelayOver(s, p) ==> p != s.idle && p !in s.ready
    ensures Ascending(due) && (forall p :: p in due <==> i <= p < MAX_PROCS && DelayOver(s, p)) && Rung(s, due, WakeDelayed(s, i))
    decreases MAX_PROCS - i
  {
    if i >= MAX_PROCS {
      due := [];
      assert s.ready + [] == s.ready;
    } else {
      var s1 := WakeDelayedAt(s, i);
      assert forall p :: p != i ==> (DelayOver(s1, p) <==> DelayOver(s, p));
      var later := RungIs(s1, i + 1);
      if DelayOver(s, i) {
        due := [i] + later;
        RungFirst(s, i, s1, later, WakeDelayed(s1, i + 1));
      } else {
        due := later;
      }
    }
  }

  lemma RungFirst(s: Kernel, i: nat, s1: Kernel, later: seq<Pid>, s': Kernel)
    requires DelayOver(s, i) && i != s.idle && i !in s.ready && s1 == WakeDelayedAt(s, i) && Rung(s1, later, s')
    requires Ascending(later) && forall p :: p in later ==> i < p
    ensures Ascending([i] + later) && Rung(s, [i] + later, s')
  {
    assert s.ready + [i] + later == s.ready + ([i] + later);
    forall j | 0 <= j < |later| ensures later[j] in later {
    }
  }

  /** One tick: the delays that are over end in pid order, the running process goes to the end of the line, and its head runs. */
  ghost predicate Ticked(s: Kernel, due: seq<Pid>, s': Kernel)
    requires s.current in s.procs
  {
    var c := s.current;
    var back := if c != s.idle && s.procs[c].state.Running? then [c] else [];
    var line := s.ready + due + back;
    && s' == s.(clock := s.clock + 1, procs := s'.procs, ready := s'.ready, current := s'.current) && s'.procs.Keys == s.procs.Keys
    && (if line == [] then s'.current == s.idle && s'.ready == [] else s'.current == line[0] && s'.ready == line[1..])
    && forall p :: p in s.procs ==>
         var pcb := s.procs[p];
         s'.procs[p] == pcb.(delayUntil := if p in due then 0 else pcb.delayUntil,
                             state := if p == s'.current && p != c then Running else if p in due || p in back then Ready else pcb.state)
  }

  /** The running process goes to the end of the line. */
  lemma RequeueIs(s: Kernel)
    requires s.current in s.procs && s.current !in s.ready
    ensures RequeueCurrent(s) ==
      if s.current != s.idle && s.procs[s.current].state.Running?
      then s.(procs := s.procs[s.current := s.procs[s.current].(state := Ready)], ready := s.ready + [s.current]) else s
  {
  }

  /** The head of the line runs. */
  lemma SwitchIs(s: Kernel)
    requires s.current in s.procs && s.idle in s.procs && forall p :: p in s.ready ==> p in s.procs
    ensures var s' := SwitchNext(s);
      && s' == s.(procs := s'.procs, ready := s'.ready, current := s'.current) && s'.procs.Keys == s.procs.Keys
      && (if s.ready == [] then s'.current == s.idle && s'.ready == [] else s'.current == s.ready[0] && s'.ready == s.ready[1..])
      && forall p :: p in s.procs ==>
           s'.procs[p] == if p == s'.current && p != s.current then s.procs[p].(state := Running) else s.procs[p]
  {
    assert s.ready != [] ==> s.ready[0] in s.ready;
  }

  /** The first half of ProcessSchedule, and then the second. */
  lemma TickIs(s: Kernel, due: seq<Pid>, s2: Kernel)
    requires PlaceInv(s) && s.current in s.procs && Rung(s.(clock := s.clock + 1), due, s2)
    requires forall p :: p in due ==> p in s.procs && s.procs[p].state.Blocked?
    ensures Ticked(s, due, SwitchNext(RequeueCurrent(s2)))
  {
    hide PlaceInv, RequeueCurrent, SwitchNext, Rung;
    TickFacts(s);
    RungShape(s.(clock := s.clock + 1), due, s2);
    RequeueIs(s2);
    var s3 := RequeueCurrent(s2);
    LineThere(s, due);
    SwitchIs(s3);
    TickEach(s, due, s2, s3, SwitchNext(s3));
  }

  lemma TickEach(s: Kernel, due: seq<Pid>, s2: Kernel, s3: Kernel, s': Kernel)
    requires s.current in s.procs && Rung(s.(clock := s.clock + 1), due, s2) && s.current !in due && s2.current == s.current && s2.idle == s.idle
    requires s2.procs[s.current] == s.procs[s.current]
    requires s3 == if s.current != s.idle && s.procs[s.current].state.Running?
      then s2.(procs := s2.procs[s.current := s2.procs[s.current].(state := Ready)], ready := s2.ready + [s.current]) else s2
    requires s' == s3.(procs := s'.procs, ready := s'.ready, current := s'.current) && s'.procs.Keys == s3.procs.Keys
    requires if s3.ready == [] then s'.current == s.idle && s'.ready == [] else s'.current == s3.ready[0] && s'.ready == s3.ready[1..]
    requires forall p :: p in s3.procs ==>
      s'.procs[p] == if p == s'.current && p != s.current then s3.procs[p].(state := Running) else s3.procs[p]
    ensures Ticked(s, due, s')
  {
    var back := if s.current != s.idle && s.procs[s.current].state.Running? then [s.current] else [];
    assert s3.ready == s.ready + due + back;
  }

  lemma LineThere(s: Kernel, due: seq<Pid>)
    requires s.current in s.procs && (forall p :: p in s.ready ==> p in s.procs) && (forall p :: p in due ==> p in s.procs)
    ensures forall p :: p in s.ready + due + [s.current] || p in s.ready + due ==> p in s.procs
  {
  }

  lemma RungShape(s: Kernel, due: seq<Pid>, s': Kernel)
    requires Rung(s, due, s') && s.current in s.procs && !s.procs[s.current].state.Blocked? && s.current !in s.ready
    requires forall p :: p in due ==> p in s.procs && s.procs[p].state.Blocked?
    ensures s' == s.(procs := s'.procs, ready := s.ready + due) && s'.procs.Keys == s.procs.Keys
    ensures s'.procs[s.current] == s.procs[s.current] && s.current !in s'.ready && s.current !in due
  {
  }

  lemma TickFacts(s: Kernel)
    requires PlaceInv(s)
    ensures s.current in s.procs && s.idle in s.procs && s.procs[s.idle].state.Running? && s.current !in s.ready && s.idle !in s.ready
    ensures !s.procs[s.current].state.Blocked? && !s.procs[s.current].state.Zombie?
    ensures forall p :: p in s.ready ==> p in s.procs && s.procs[p].state.Ready?
    ensures forall p :: p in s.procs ==> p < MAX_PROCS
  {
    hide QueuesAgree, WritersAgree, ParksAgree, Unique, DelaysAhead;
  }

  lemma ClockOutcome(s: Kernel)
    requires Reached(s) && Legal(s, EvClock)
    ensures s.current in s.procs
    ensures exists due ::
      && Ascending(due) && Ticked(s, due, Step(s, EvClock))
      && forall p :: p in due <==>
           p in s.procs && s.procs[p].state.Blocked? && s.procs[p].delayUntil != 0 && s.procs[p].delayUntil <= s.clock + 1
  {
    hide Reached, Inv, PlaceInv, Restful, WakeDelayed, SwitchNext, RequeueCurrent, Ticked, Rung, Ascending;
    ReachedRests(s);
    TickFacts(s);
    var s1 := s.(clock := s.clock + 1);
    var due := RungIs(s1, 0);
    TickIs(s, due, WakeDelayed(s1, 0));
    assert Step(s, EvClock) == SwitchNext(RequeueCurrent(WakeDelayed(s1, 0)));
  }

  // ---------- boot ----------

  /** What the kernel is when it leaves for init's program. */
  lemma BootOutcome(s: Kernel)
    requires Booted(s)
    ensures s.procs.Keys == {s.idle, s.init} && s.idle != s.init && s.current == s.init && s.ready == [] && s.clock == 0
    ensures forall p :: p in s.procs ==>
      s.procs[p] == Pcb(Running, ToUser, None, 0, false, 0, Kin(None, [], 0), Io(0, None, [], 0, 0), User(0, 0, [], {}))
    ensures (forall q :: Q(s, q) == []) && |s.objects| == IPC_MAX_OBJECTS && forall i :: 0 <= i < |s.objects| ==> s.objects[i].Free?
    ensures |s.terms| == NUM_TERMINALS && forall t :: 0 <= t < |s.terms| ==> s.terms[t] == Terminal([], None, None, false, [], [])
  {
  }
}
