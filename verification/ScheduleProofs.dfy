/** What ProcessSchedule keeps, whom it selects and whom it can lose. */
module ScheduleProofs {
  import opened Common
  import opened KernelState
  import opened KernelInvariants
  import opened PlaceProofs

  lemma FrameTrans(s: Kernel, s': Kernel, s'': Kernel)
    requires ScheduleFrame(s, s') && ScheduleFrame(s', s'')
    ensures ScheduleFrame(s, s'')
  {
    forall p | p in s.procs ensures SameButSchedule(s.procs[p], s''.procs[p]) {
      assert SameButSchedule(s.procs[p], s'.procs[p]) && SameButSchedule(s'.procs[p], s''.procs[p]);
    }
  }

  // ---------- ProcessWakeDelayed ----------

  lemma DelayedIsParked(s: Kernel, i: Pid)
    requires PlaceBase(s) && DelayOver(s, i)
    ensures var s' := SetProc(s, i, s.procs[i].(delayUntil := 0));
      && QueuesAgree(s') && WritersAgree(s') && Parks(s', i) == 0
      && (forall x :: x in s.procs && x != i ==> Parks(s', x) == Parks(s, x))
  {
    hide ReadyAgrees, RunningAgrees;
    var s' := SetProc(s, i, s.procs[i].(delayUntil := 0));
    assert ParksAgree(s, i);
    assert forall q :: Q(s', q) == Q(s, q);
    assert forall t :: Term(s', t) == Term(s, t);
  }

  lemma WakeDelayedAtPlaces(s: Kernel, i: Pid)
    requires PlaceBase(s) && DelayOver(s, i) && i != s.current
    ensures PlaceBase(WakeDelayedAt(s, i))
    ensures WakeDelayedAt(s, i) ==
            s.(procs := s.procs[i := s.procs[i].(delayUntil := 0, state := Ready)], ready := s.ready + [i])
  {
    DelayedIsParked(s, i);
    hide PlaceBase, QueuesAgree, WritersAgree, Parks, MakeReady;
    MakeReadyPlaces(s, s, i, s.procs[i].(delayUntil := 0));
  }

  /** s' is s with every process from slot i on whose delay is over made ready. */
  ghost predicate DelayedWoken(s: Kernel, i: nat, s': Kernel) {
    && ScheduleFrame(s, s') && s'.current == s.current
    && s.ready <= s'.ready
    && (forall p :: p in s.procs && !(p >= i && DelayOver(s, p)) ==> s'.procs[p] == s.procs[p])
    && (forall p :: p in s.procs && p >= i && DelayOver(s, p) ==> !DelayOver(s', p) && p in s'.ready)
    && (forall p :: p in s'.ready && p !in s.ready ==> DelayOver(s, p))
  }

  lemma WakeDelayedFirst(s: Kernel, i: nat)
    requires PlaceBase(s) && !DelayOver(s, s.current)
    ensures var s1 := WakeDelayedAt(s, i);
      && PlaceBase(s1) && ScheduleFrame(s, s1) && s1.current == s.current && !DelayOver(s1, i)
      && (forall p :: p in s.procs && p != i ==> s1.procs[p] == s.procs[p])
      && (if DelayOver(s, i) then s1.ready == s.ready + [i] else s1 == s)
  {
    hide PlaceBase;
    if DelayOver(s, i) {
      WakeDelayedAtPlaces(s, i);
    }
  }

  lemma {:induction false} WakeDelayedPlaces(s: Kernel, i: nat)
    requires PlaceBase(s) && !DelayOver(s, s.current)
    ensures PlaceBase(WakeDelayed(s, i)) && DelayedWoken(s, i, WakeDelayed(s, i))
    decreases MAX_PROCS - i
  {
    assert i >= MAX_PROCS ==> forall p :: p in s.procs ==> p < i;
    hide PlaceBase;
    if i < MAX_PROCS {
      WakeDelayedFirst(s, i);
      var s1 := WakeDelayedAt(s, i);
      assert DelayOver(s1, s.current) ==> DelayOver(s, s.current);
      WakeDelayedPlaces(s1, i + 1);
      DelayedWokenStep(s, i, s1, WakeDelayed(s1, i + 1));
    }
  }

  lemma DelayedWokenStep(s: Kernel, i: nat, s1: Kernel, s': Kernel)
    requires ScheduleFrame(s, s1) && s1.current == s.current && !DelayOver(s1, i)
    requires forall p :: p in s.procs && p != i ==> s1.procs[p] == s.procs[p]
    requires if DelayOver(s, i) then s1.ready == s.ready + [i] else s1 == s
    requires DelayedWoken(s1, i + 1, s')
    ensures DelayedWoken(s, i, s')
  {
    FrameTrans(s, s1, s');
    assert s1.ready <= s'.ready;
    assert forall p :: p != i ==> (DelayOver(s1, p) <==> DelayOver(s, p));
    assert i in s.procs ==> s'.procs[i] == s1.procs[i];
    if DelayOver(s, i) {
      assert s'.ready[|s.ready|] == s1.ready[|s.ready|] == i;
    }
  }

  // ---------- ProcessSchedule ----------

  /** PlaceBase, but for the current process, which may be at the end of the ready queue. */
  ghost predicate Requeued(s: Kernel) {
    && QueuesAgree(s) && WritersAgree(s) && RunningAgrees(s)
    && Unique(s.ready)
    && (forall p :: p in s.ready ==> p in s.procs && p != s.idle && s.procs[p].state.Ready?)
    && (forall p :: p in s.procs ==> ParksAgree(s, p))
    && (s.current in s.ready ==> s.ready[|s.ready| - 1] == s.current)
  }

  lemma SwitchReady(s: Kernel)
    requires Requeued(s) && (Cur(s).state.Running? ==> s.current == s.idle)
    ensures ReadyAgrees(SwitchNext(s)) && RunningAgrees(SwitchNext(s))
    ensures !Cur(SwitchNext(s)).state.Blocked? && !Cur(SwitchNext(s)).state.Zombie?
  {
    var s' := SwitchNext(s);
    if s.ready != [] {
      assert forall p :: p in s.ready <==> p == s.ready[0] || p in s.ready[1..];
    }
    assert s'.current !in s'.ready;
  }

  lemma SwitchFrame(s: Kernel)
    requires s.current in s.procs && s.idle in s.procs && s.procs[s.idle].state.Running?
    requires forall p :: p in s.ready ==> p in s.procs && s.procs[p].state.Ready?
    ensures ScheduleFrame(s, SwitchNext(s)) && SameParkings(s, SwitchNext(s))
    ensures forall p :: p in s.procs ==> (SwitchNext(s).procs[p].state.Blocked? <==> s.procs[p].state.Blocked?)
  {
    var next := if s.ready == [] then s.idle else s.ready[0];
    assert s.ready != [] ==> s.ready[0] in s.ready;
    var s' := SwitchNext(s);
    forall p | p in s.procs ensures SameButSchedule(s.procs[p], s'.procs[p]) && SameParking(s.procs[p], s'.procs[p]) {
      assert s'.procs[p] == if p == next && next != s.current then s.procs[p].(state := Running) else s.procs[p];
    }
  }

  lemma SwitchPlaces(s: Kernel)
    requires Requeued(s) && (Cur(s).state.Running? ==> s.current == s.idle)
    ensures PlaceBase(SwitchNext(s)) && ScheduleFrame(s, SwitchNext(s))
    ensures !Cur(SwitchNext(s)).state.Blocked? && !Cur(SwitchNext(s)).state.Zombie?
  {
    SwitchReady(s);
    SwitchFrame(s);
    hide SwitchNext, QueuesAgree, ReadyAgrees, RunningAgrees, WritersAgree, SameParkings, ScheduleFrame, ParksAgree;
    ParksAgreeKept(s, SwitchNext(s));
  }

  /** Whether ProcessSchedule puts the current process back on the ready queue. */
  predicate Requeues(s: Kernel) {
    s.current != s.idle && Cur(s).state.Running?
  }

  function RequeuedState(s: Kernel): Kernel {
    s.(procs := s.procs[s.current := Cur(s).(state := Ready)], ready := s.ready + [s.current])
  }

  lemma RequeueReady(s: Kernel)
    requires ReadyAgrees(s) && RunningAgrees(s) && Requeues(s)
    ensures var s' := RequeuedState(s);
      && RunningAgrees(s') && Unique(s'.ready)
      && (forall p :: p in s'.ready ==> p in s'.procs && p != s'.idle && s'.procs[p].state.Ready?)
      && SameParkings(s, s') && ScheduleFrame(s, s')
  {
  }

  lemma RequeuePlaces(s: Kernel)
    requires PlaceBase(s)
    ensures Requeued(RequeueCurrent(s)) && (Cur(RequeueCurrent(s)).state.Running? ==> s.current == s.idle)
    ensures RequeueCurrent(s) == (if Requeues(s) then RequeuedState(s) else s)
    ensures ScheduleFrame(s, RequeueCurrent(s))
  {
    hide QueuesAgree, WritersAgree, SameParkings, ParksAgree;
    assert s.current in s.procs && s.current !in s.ready;
    if Requeues(s) {
      RequeueReady(s);
      hide QueuesAgree, ReadyAgrees, RunningAgrees, WritersAgree, SameParkings, ScheduleFrame, ParksAgree;
      ParksAgreeKept(s, RequeuedState(s));
    }
  }

  /** Everything ProcessSchedule does: whom it selects, wakes and requeues, and that it does no more. */
  ghost predicate Scheduled(s: Kernel, s': Kernel) {
    && ScheduleFrame(s, s')
    && (s.ready != [] ==> s'.current == s.ready[0] && s.ready[1..] <= s'.ready)
    && (forall p :: p in s.procs && s.procs[p].state.Blocked? && !DelayOver(s, p) ==> s'.procs[p] == s.procs[p])
    && (forall p :: DelayOver(s, p) ==> s'.procs[p].delayUntil == 0)
    && (forall p :: p in s.ready || DelayOver(s, p) || (p == s.current && Requeues(s)) ==>
          p == s'.current || p in s'.ready)
    && (forall p :: p in s'.ready || p == s'.current ==>
          p == s.idle || p in s.ready || DelayOver(s, p) || (p == s.current && Requeues(s)))
  }

  /** The ready queue on its way through ProcessSchedule: additions at the end, then one removal. */
  lemma ReadyFlow(before: seq<Pid>, queued: seq<Pid>, idle: Pid, next: Pid, after: seq<Pid>)
    requires before <= queued
    requires if queued == [] then next == idle && after == [] else next == queued[0] && after == queued[1..]
    ensures before != [] ==> next == before[0] && before[1..] <= after
    ensures forall p :: p in queued ==> p == next || p in after
    ensures forall p :: p in after || p == next ==> p == idle || p in queued
  {
    assert queued != [] ==> queued == [queued[0]] + queued[1..];
  }

  lemma ScheduledProcs(s: Kernel, s1: Kernel, s2: Kernel, s': Kernel)
    requires DelayedWoken(s, 0, s1) && s.current in s.procs && !DelayOver(s, s.current)
    requires s2 == (if Requeues(s1) then RequeuedState(s1) else s1)
    requires s' == SwitchNext(s2) && (s2.ready != [] ==> s2.ready[0] in s2.procs && s2.procs[s2.ready[0]].state.Ready?)
    requires s.idle in s.procs && s.procs[s.idle].state.Running?
    ensures Cur(s1) == Cur(s)
    ensures forall p :: p in s.procs && s.procs[p].state.Blocked? && !DelayOver(s, p) ==> s'.procs[p] == s.procs[p]
  {
    assert Cur(s1) == Cur(s);
    forall p | p in s.procs && s.procs[p].state.Blocked? && !DelayOver(s, p) ensures s'.procs[p] == s.procs[p] {
      assert s1.procs[p] == s.procs[p];
      assert s2.procs[p] == s.procs[p];
    }
  }

  lemma ScheduledDelayed(s: Kernel, s1: Kernel, s': Kernel)
    requires PlaceBase(s) && DelayedWoken(s, 0, s1) && PlaceBase(s1) && ScheduleFrame(s1, s')
    ensures forall p :: DelayOver(s, p) ==> s'.procs[p].delayUntil == 0
  {
    forall p | DelayOver(s, p) ensures s'.procs[p].delayUntil == 0 {
      assert p in s1.ready && s1.procs[p].state.Ready?;
      assert ParksAgree(s1, p);
      assert SameButSchedule(s1.procs[p], s'.procs[p]);
    }
  }

  lemma ScheduleDelays(s: Kernel, s': Kernel)
    requires PlaceBase(s') && Scheduled(s, s') && (forall p :: p in s.procs ==> ParksAgree(s, p))
    ensures DelaysAhead(s')
  {
    forall p | p in s'.procs && s'.procs[p].delayUntil != 0 ensures s'.procs[p].delayUntil > s'.clock {
      assert SameButSchedule(s.procs[p], s'.procs[p]);
      assert ParksAgree(s, p);
    }
  }

  lemma ScheduledIs(s: Kernel, s1: Kernel, s2: Kernel, s': Kernel)
    requires ScheduleFrame(s, s') && DelayedWoken(s, 0, s1)
    requires forall p :: p in s.procs && s.procs[p].state.Blocked? && !DelayOver(s, p) ==> s'.procs[p] == s.procs[p]
    requires forall p :: DelayOver(s, p) ==> s'.procs[p].delayUntil == 0
    requires s2.ready == (if Requeues(s) then s1.ready + [s.current] else s1.ready)
    requires if s2.ready == [] then s'.current == s.idle && s'.ready == []
             else s'.current == s2.ready[0] && s'.ready == s2.ready[1..]
    ensures Scheduled(s, s')
  {
    assert s.ready <= s2.ready;
    ReadyFlow(s.ready, s2.ready, s.idle, s'.current, s'.ready);
    assert forall p :: p in s2.ready <==> p in s1.ready || (Requeues(s) && p == s.current);
  }

  lemma SchedulePhases(s: Kernel, s1: Kernel, s2: Kernel)
    requires PlaceBase(s) && !DelayOver(s, s.current)
    requires s1 == WakeDelayed(s, 0) && s2 == RequeueCurrent(s1)
    ensures PlaceBase(s1) && DelayedWoken(s, 0, s1) && Requeued(s2)
    ensures Cur(s2).state.Running? ==> s2.current == s2.idle
    ensures s2 == (if Requeues(s1) then RequeuedState(s1) else s1)
    ensures ScheduleFrame(s1, s2) && ScheduleFrame(s, s2) && s1.current == s.current
    ensures s.current in s.procs && s.idle in s.procs && s.procs[s.idle].state.Running?
    ensures s2.ready != [] ==> s2.ready[0] in s2.procs && s2.procs[s2.ready[0]].state.Ready?
  {
    assert s.current in s.procs && s.idle in s.procs && s.procs[s.idle].state.Running?;
    hide PlaceBase, QueuesAgree, WritersAgree, RunningAgrees, ParksAgree, WakeDelayed, RequeueCurrent;
    WakeDelayedPlaces(s, 0);
    hide ScheduleFrame;
    RequeuePlaces(s1);
    FrameTrans(s, s1, s2);
    assert s2.ready != [] ==> s2.ready[0] in s2.ready;
  }

  lemma SchedulePlaces(s: Kernel)
    requires PlaceBase(s) && !DelayOver(s, s.current)
    ensures PlaceInv(Schedule(s)) && Scheduled(s, Schedule(s))
  {
    hide PlaceBase, ScheduleFrame, DelayedWoken, Scheduled, WakeDelayed, RequeueCurrent, Requeued;
    var s1 := WakeDelayed(s, 0);
    var s2 := RequeueCurrent(s1);
    SchedulePhases(s, s1, s2);
    SwitchPlaces(s2);
    var s' := SwitchNext(s2);
    FrameTrans(s1, s2, s');
    FrameTrans(s, s2, s');
    ScheduledProcs(s, s1, s2, s');
    ScheduledDelayed(s, s1, s');
    ScheduledIs(s, s1, s2, s');
    AllParksAgree(s);
    ScheduleDelays(s, s');
  }

  lemma AllParksAgree(s: Kernel)
    requires PlaceBase(s)
    ensures forall p :: p in s.procs ==> ParksAgree(s, p)
  {
  }
}
