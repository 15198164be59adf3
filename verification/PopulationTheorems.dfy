/** Who is there after a step, and who of them is a zombie. */
module PopulationTheorems {
  import opened Common
  import opened KernelState
  import opened KernelSteps
  import opened KernelInvariants
  import IpcProofs
  import LifeProofs
  import ExitProofs
  import StepFrames
  import StepTheorems
  import RunTheorems

  /** The zombie child that a Wait, or its resumption, finds. */
  function ReapedBy(k: Kernel, e: Event): Option<Pid> {
    if k.current != k.idle && (e.EvWait? || (e.EvResume? && Cur(k).cont.InWait?)) then FirstZombie(k, Cur(k).kin.children) else None
  }

  function Taken(c: Option<Pid>): set<Pid> {
    if c.Some? then {c.value} else {}
  }

  /** The child that joins. */
  predicate Bears(k: Kernel, e: Event) {
    e.EvFork? && e.made && e.cloned && k.current != k.idle
  }

  function Born(k: Kernel, e: Event): set<Pid> {
    if Bears(k, e) then {e.child} else {}
  }

  /** Who is there after the step, and who of them is a zombie. */
  ghost predicate Peopled(k: Kernel, e: Event, k': Kernel) {
    && k'.procs.Keys == k.procs.Keys + Born(k, e) - Taken(ReapedBy(k, e))
    && forall p :: p in k'.procs ==>
         (k'.procs[p].state.Zombie? <==> (p in k.procs && k.procs[p].state.Zombie?) || (e.EvExit? && p == k.current))
  }

  lemma WaitPids(k: Kernel, want: bool, e: Event)
    requires Inv(k) && Legal(k, e) && (e.EvWait? || (e.EvResume? && Cur(k).cont.InWait?))
    ensures var k' := Wait(k, want);
      k'.procs.Keys == k.procs.Keys - Taken(ReapedBy(k, e))
    ensures ReapedBy(k, e).Some? ==> ReapedBy(k, e).value in k.procs && k.procs[ReapedBy(k, e).value].state.Zombie?
  {
    hide Inv, Wait, FirstZombie, Legal, StepFrames.Touches, StepTheorems.Living;
    StepTheorems.LivingOf(k);
    if k.current == k.idle {
      StepTheorems.WaitIdle(k, want);
      StepFrames.ReturnTouches(k, ERROR, {});
      TouchedPids(k, Return(k, ERROR), {});
    } else if FirstZombie(k, Cur(k).kin.children).None? {
      StepFrames.WaitBlocks(k, want);
      TouchedPids(k, Wait(k, want), {});
    } else {
      var c := FirstZombie(k, Cur(k).kin.children).value;
      StepTheorems.ReapFacts(k, c);
      LifeProofs.WaitReapIs(k, c, want);
    }
  }

  lemma TouchedPids(k: Kernel, k': Kernel, ids: set<int>)
    requires StepFrames.Touches(k, k', k.current, ids) && StepTheorems.Living(k)
    ensures k'.procs.Keys == k.procs.Keys
  {
    assert StepFrames.Alive(k, k.current);
  }

  lemma ForkPids(k: Kernel, e: Event)
    requires Inv(k) && Legal(k, e) && e.EvFork?
    ensures Step(k, e).procs.Keys == k.procs.Keys + Born(k, e)
    ensures Bears(k, e) ==> !Step(k, e).procs[e.child].state.Zombie?
  {
    hide Inv, Fork, LifeProofs.Whole, LifeProofs.Forked, Return, StepTheorems.Living, StepFrames.Touches;
    RunTheorems.InvParts(k);
    LifeProofs.NewPidUnused(k, e.child);
    StepTheorems.LivingOf(k);
    LivingIs(k);
    if Bears(k, e) {
      LifeProofs.ForkIs(k, e.child);
      LifeProofs.ForkFields(k, e.child, Step(k, e));
    } else {
      if k.current == k.idle || !e.made {
        LifeProofs.ForkFails(k, e.child, e.made, e.cloned);
      } else {
        LifeProofs.ForkUndone(k, e.child);
      }
      StepFrames.ReturnTouches(k, ERROR, {});
      TouchedPids(k, Step(k, e), {});
    }
  }

  lemma StepPids(k: Kernel, e: Event)
    requires Inv(k) && Legal(k, e)
    ensures Step(k, e).procs.Keys == k.procs.Keys + Born(k, e) - Taken(ReapedBy(k, e))
    ensures ReapedBy(k, e).Some? ==> ReapedBy(k, e).value in k.procs && k.procs[ReapedBy(k, e).value].state.Zombie?
  {
    hide Inv, Legal, Step, FirstZombie, Wait, ResumeWait, StepTheorems.Living, StepTheorems.Isolated;
    if e.EvFork? {
      ForkPids(k, e);
    } else if e.EvWait? {
      WaitPids(k, e.wantStatus, e);
      WaitIs(k, e);
    } else if e.EvResume? && Cur(k).cont.InWait? {
      WaitPids(k, Cur(k).cont.wantStatus, e);
      StepTheorems.ResumeWaitIs(k, Cur(k).cont.wantStatus);
      WaitIs(k, e);
    } else {
      StepTheorems.LivingOf(k);
      LivingIs(k);
      StepTheorems.StepIsolated(k, e);
      KeysKept(k, e, Step(k, e));
    }
  }

  lemma WaitIs(k: Kernel, e: Event)
    requires Legal(k, e)
    ensures e.EvWait? ==> Step(k, e) == Wait(k, e.wantStatus)
    ensures e.EvResume? && Cur(k).cont.InWait? ==> Step(k, e) == ResumeWait(k, Cur(k).cont.wantStatus)
  {
    hide Wait, ResumeWait;
  }

  lemma KeysKept(k: Kernel, e: Event, k': Kernel)
    requires Legal(k, e) && StepTheorems.Isolated(k, e, k') && k.current in k.procs
    requires !e.EvFork? && !e.EvWait? && !(e.EvResume? && Cur(k).cont.InWait?)
    ensures k'.procs.Keys == k.procs.Keys
  {
    hide StepTheorems.Named, StepFrames.AcceptedBy, StepFrames.ObjectKept, StepFrames.PartKept, Legal,
      StepTheorems.LinesKept;
  }

  /** The caller becomes a zombie only by exiting. */
  lemma CallerZombie(k: Kernel, e: Event)
    requires Inv(k) && Legal(k, e)
    ensures k.current in Step(k, e).procs && (Step(k, e).procs[k.current].state.Zombie? <==> e.EvExit?)
  {
    hide Inv, Step, Legal, RunTheorems.Stepped, StepTheorems.Isolated;
    RunTheorems.StepKept(k, e);
    StepTheorems.StepIsolated(k, e);
    CallerStays(k, e, Step(k, e));
    if e.EvExit? {
      ExitMakesZombie(k, e);
    } else if e.EvClock? {
      RunTheorems.StepIs(k, e);
      TickMakesNone(k);
    } else if !IpcProofs.Blocks(k, Step(k, e)) {
      SameCaller(k, e, Step(k, e));
      CurrentIsNone(Step(k, e));
    }
  }

  lemma CallerStays(k: Kernel, e: Event, k': Kernel)
    requires Inv(k) && Legal(k, e) && StepTheorems.Isolated(k, e, k')
    ensures k.current in k'.procs
  {
    hide Inv, Legal, StepTheorems.Living, StepTheorems.Named, StepFrames.AcceptedBy, StepFrames.ObjectKept,
      StepFrames.PartKept;
    StepTheorems.LivingOf(k);
    LivingIs(k);
  }

  lemma LivingIs(k: Kernel)
    requires StepTheorems.Living(k)
    ensures k.current in k.procs
  {
  }

  lemma SameCaller(k: Kernel, e: Event, k': Kernel)
    requires Legal(k, e) && k' == Step(k, e) && !e.EvExit? && !e.EvClock? && !IpcProofs.Blocks(k, k')
    requires RunTheorems.Stepped(k, e, k', RunTheorems.Reschedules(k, e))
    ensures k'.current == k.current
  {
    hide Step, Legal, Lost;
  }

  lemma CurrentIsNone(k: Kernel)
    requires Inv(k)
    ensures !Cur(k).state.Zombie?
  {
    hide PlaceBase, LockInv, PipeInv, FamilyInv, TtyInv, DelaysAhead;
  }

  lemma ExitMakesZombie(k: Kernel, e: Event)
    requires Inv(k) && Legal(k, e) && e.EvExit?
    ensures k.current in Step(k, e).procs && Step(k, e).procs[k.current].state.Zombie?
  {
    hide Inv, LifeProofs.Whole, Exit, Went, LifeProofs.LifeKept;
    RunTheorems.InvParts(k);
    RunTheorems.StepIs(k, e);
    ExitProofs.ExitKept(k, e.status);
  }

  lemma TickMakesNone(k: Kernel)
    requires Inv(k) && Legal(k, EvClock) && k.current in Clock(k).procs
    ensures !Clock(k).procs[k.current].state.Zombie?
  {
    hide Inv, Schedule, StepTheorems.Living, LockInv, PipeInv, FamilyInv, TtyInv;
    StepTheorems.LivingOf(k);
    CurrentIsNone(k);
    var k1 := k.(clock := k.clock + 1);
    StepFrames.ScheduleTouches(k1, MAX_PROCS);
    OneStaysAlive(k, k1, Clock(k));
  }

  lemma OneStaysAlive(k: Kernel, k1: Kernel, k': Kernel)
    requires Inv(k) && StepTheorems.Living(k) && k1 == k.(clock := k.clock + 1) && StepFrames.Touches(k1, k', MAX_PROCS, {})
    requires !Cur(k).state.Zombie? && k.current in k'.procs
    ensures !k'.procs[k.current].state.Zombie?
  {
    hide LockInv, PipeInv, FamilyInv, TtyInv, QueuesAgree, ReadyAgrees, WritersAgree, ParksAgree, DelaysAhead;
    assert StepFrames.Alive(k, MAX_PROCS);
    assert StepFrames.Alive(k1, MAX_PROCS);
  }

  lemma StepPeopled(k: Kernel, e: Event)
    requires Inv(k) && Legal(k, e)
    ensures Peopled(k, e, Step(k, e)) && Inv(Step(k, e))
    ensures ReapedBy(k, e).Some? ==> ReapedBy(k, e).value in k.procs && k.procs[ReapedBy(k, e).value].state.Zombie?
    ensures ReapedBy(k, e).Some? ==> ReapedBy(k, e).value != k.idle
  {
    hide Inv, Step, Legal, FirstZombie, RunTheorems.Stepped, StepTheorems.Isolated, ReapedBy;
    RunTheorems.StepKept(k, e);
    StepPids(k, e);
    CallerZombie(k, e);
    CurrentIsNone(k);
    IdleIsNone(k);
    StepTheorems.StepIsolated(k, e);
    forall p | p in Step(k, e).procs
      ensures Step(k, e).procs[p].state.Zombie? <==> (p in k.procs && k.procs[p].state.Zombie?) || (e.EvExit? && p == k.current)
    {
      if p !in k.procs {
        ForkPids(k, e);
      } else if p != k.current {
        OtherZombie(k, e, Step(k, e), p);
      }
    }
  }

  lemma IdleIsNone(k: Kernel)
    requires Inv(k)
    ensures k.idle in k.procs && !k.procs[k.idle].state.Zombie? && k.current in k.procs
  {
    hide LockInv, PipeInv, FamilyInv, TtyInv, QueuesAgree, ReadyAgrees, WritersAgree, ParksAgree, DelaysAhead;
  }

  lemma OtherZombie(k: Kernel, e: Event, k': Kernel, p: Pid)
    requires Legal(k, e) && StepTheorems.Isolated(k, e, k') && p in k.procs && p in k'.procs && p != k.current
    ensures k'.procs[p].state.Zombie? <==> k.procs[p].state.Zombie?
  {
    hide StepTheorems.Named, StepFrames.AcceptedBy, StepFrames.ObjectKept, StepFrames.PartKept, Legal,
      StepTheorems.LinesKept;
  }
}
