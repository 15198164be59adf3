/** The effect of each kernel operation on queues, states and the ready queue. */
module OperationPlaces {
  import opened Common
  import opened KernelState
  import opened KernelInvariants
  import opened PlaceProofs
  import opened ScheduleProofs

  lemma ForwardTrans(s: Kernel, s': Kernel, s'': Kernel)
    requires Forward(s, s') && Forward(s', s'')
    ensures Forward(s, s'')
  {
  }

  /** s' differs from s in nothing that says where a process is. */
  ghost predicate Still(s: Kernel, s': Kernel) {
    && SameParkings(s, s') && s'.clock == s.clock
    && s'.ready == s.ready && s'.current == s.current && s'.idle == s.idle && s'.init == s.init
    && (forall p :: p in s.procs ==> s'.procs[p].state == s.procs[p].state)
  }

  lemma StillPlaces(s: Kernel, s': Kernel)
    requires PlaceBase(s) && Still(s, s')
    ensures PlaceBase(s') && Forward(s, s') && Cur(s').state == Cur(s).state
    ensures PlaceInv(s) ==> PlaceInv(s')
  {
    assert s.current in s.procs;
    hide PlaceBase;
    PlacesKept(s, s');
  }

  // ---------- blocking ----------

  /** The current process parks itself, in exactly one way. */
  lemma ParkedPlaces(s: Kernel, s': Kernel)
    requires PlaceInv(s) && s.current != s.idle
    requires s'.ready == s.ready && s'.current == s.current && s'.idle == s.idle && s'.init == s.init
    requires s'.procs.Keys == s.procs.Keys && s'.clock == s.clock
    requires QueuesAgree(s') && WritersAgree(s')
    requires forall x :: x in s.procs && x != s.current ==> s'.procs[x].state == s.procs[x].state && Parks(s', x) == Parks(s, x)
    requires Cur(s').state.Blocked? && Parks(s', s.current) == 1
    ensures PlaceBase(s') && Forward(s, s')
  {
    hide QueuesAgree, WritersAgree, Parks;
    forall x | x in s'.procs ensures ParksAgree(s', x) {
      assert ParksAgree(s, x);
    }
  }

  lemma ParkScheduled(s: Kernel, s': Kernel)
    requires PlaceBase(s') && Forward(s, s') && Cur(s').state.Blocked? && !DelayOver(s', s'.current)
    ensures PlaceInv(Schedule(s')) && Scheduled(s', Schedule(s')) && ScheduleFrame(s', Schedule(s'))
    ensures Proc(Schedule(s'), s.current) == Cur(s')
    ensures forall p :: Lost(s, p) <==> Lost(Schedule(s'), p)
  {
    assert s'.current in s'.procs && s'.idle in s'.procs;
    SchedulePlaces(s');
    hide PlaceBase, PlaceInv, Schedule;
    ScheduleLoses(s');
  }

  lemma ScheduledState(s: Kernel, s': Kernel, p: Pid)
    requires PlaceBase(s) && PlaceInv(s') && Scheduled(s, s') && p in s.procs && p != s'.current && p !in s'.ready && p != s.idle
    ensures s'.procs[p].state.Ready? <==>
            s.procs[p].state.Ready? || (p == s.current && Requeues(s))
  {
    assert SameButSchedule(s.procs[p], s'.procs[p]);
    assert s.procs[p].state.Running? ==> p == s.current;
    assert !s'.procs[p].state.Running?;
  }

  /** ProcessSchedule loses exactly a current process that is marked ready, and finds nobody. */
  lemma ScheduleLoses(s: Kernel)
    requires PlaceBase(s) && Scheduled(s, Schedule(s)) && PlaceInv(Schedule(s))
    ensures forall p :: Lost(Schedule(s), p) <==>
                        Lost(s, p) || (p == s.current && p != s.idle && Cur(s).state.Ready?)
  {
    hide PlaceBase, PlaceInv, Schedule, ScheduleFrame, Parks;
    var s' := Schedule(s);
    ScheduledIds(s, s');
    forall p | p in s.procs && p != s'.current && p !in s'.ready && p != s.idle
      ensures s'.procs[p].state.Ready? <==> s.procs[p].state.Ready? || (p == s.current && Requeues(s))
    {
      ScheduledState(s, s', p);
    }
  }

  lemma ScheduledIds(s: Kernel, s': Kernel)
    requires PlaceBase(s) && Scheduled(s, s') && PlaceInv(s')
    ensures s.current in s.procs && s.current !in s.ready && s'.current !in s'.ready && s'.idle == s.idle && s'.procs.Keys == s.procs.Keys
    ensures forall p :: DelayOver(s, p) ==> s.procs[p].state.Blocked?
  {
    hide Parks, QueuesAgree, WritersAgree;
  }

  /** The current process at the end of queue q. */
  lemma EnqueueQueues(s: Kernel, q: QueueId, c: Cont)
    requires QueuesAgree(s) && s.current in s.procs && Cur(s).blockQueue.None?
    ensures QueuesAgree(Enqueue(s, q, c))
  {
    hide Unique;
    var s' := Enqueue(s, q, c);
    assert s.current !in Q(s, q) && Unique(Q(s, q));
    UniqueSnoc(Q(s, q), s.current);
    assert forall r :: Q(s', r) == if r == q then Q(s, q) + [s.current] else Q(s, r);
    forall r, p | p in Q(s', r) ensures p in s'.procs && s'.procs[p].blockQueue == Some(r) {
      assert p != s.current ==> p in Q(s, r);
    }
  }

  lemma EnqueueWriters(s: Kernel, q: QueueId, c: Cont)
    requires WritersAgree(s) && s.current in s.procs
    ensures WritersAgree(Enqueue(s, q, c))
    ensures forall x :: x != s.current ==> Parks(Enqueue(s, q, c), x) == Parks(s, x)
    ensures Parks(s, s.current) == 0 ==> Parks(Enqueue(s, q, c), s.current) == 1
  {
    assert forall t :: Term(Enqueue(s, q, c), t) == Term(s, t);
  }

  lemma CurrentFree(s: Kernel)
    requires PlaceInv(s)
    ensures s.current in s.procs && s.idle in s.procs && s.current !in s.ready && Parks(s, s.current) == 0
    ensures Cur(s).blockQueue.None? && Cur(s).delayUntil == 0 && !Cur(s).waitingForChild && !IsWriter(s, s.current)
    ensures Cur(s).state.Ready? || Cur(s).state.Running?
    ensures forall q :: s.current !in Q(s, q)
  {
    assert ParksAgree(s, s.current);
  }

  lemma BlockPlaces(s: Kernel, q: QueueId, c: Cont)
    requires PlaceInv(s) && s.current != s.idle
    ensures PlaceInv(BlockOn(s, q, c)) && Scheduled(Enqueue(s, q, c), BlockOn(s, q, c))
    ensures Proc(BlockOn(s, q, c), s.current) == Cur(Enqueue(s, q, c))
    ensures forall p :: Lost(s, p) <==> Lost(BlockOn(s, q, c), p)
  {
    CurrentFree(s);
    EnqueueQueues(s, q, c);
    EnqueueWriters(s, q, c);
    assert PlaceBase(s);
    hide PlaceBase, QueuesAgree, WritersAgree, Parks, Forward, Schedule;
    ParkedPlaces(s, Enqueue(s, q, c));
    ParkScheduled(s, Enqueue(s, q, c));
  }

  // ---------- waking everybody in a queue ----------

  ghost predicate WokeAll(s: Kernel, q: QueueId, s': Kernel) {
    && s' == s.(procs := s'.procs, queues := s'.queues, ready := s'.ready)
    && s'.procs.Keys == s.procs.Keys && s'.ready == s.ready + Q(s, q)
    && (forall r :: Q(s', r) == if r == q then [] else Q(s, r))
    && (forall p :: p in s.procs ==> s'.procs[p] == if p in Q(s, q) then Awake(s.procs[p]) else s.procs[p])
  }

  lemma WokeAllStep(s: Kernel, q: QueueId, s1: Kernel, s': Kernel)
    requires Q(s, q) != [] && Unique(Q(s, q))
    requires var p := Q(s, q)[0];
      && p in s.procs
      && s1 == s.(procs := s.procs[p := Awake(s.procs[p])],
                  queues := s.queues[q := Q(s, q)[1..]], ready := s.ready + [p])
    requires WokeAll(s1, q, s')
    ensures WokeAll(s, q, s')
  {
    UniqueTail(Q(s, q));
    hide Unique, Awake;
    assert Q(s, q) == [Q(s, q)[0]] + Q(s, q)[1..];
    assert forall r :: Q(s1, r) == if r == q then Q(s, q)[1..] else Q(s, r);
  }

  lemma {:induction false} WakeAllPlaces(s: Kernel, q: QueueId)
    requires PlaceBase(s) && !Cur(s).state.Blocked?
    ensures PlaceBase(WakeAll(s, q)) && WokeAll(s, q, WakeAll(s, q))
    ensures forall p :: p in Q(s, q) ==> p in s.procs && p != s.current && s.procs[p].blockQueue == Some(q) && s.procs[p].state.Blocked?
    decreases |Q(s, q)|
  {
    QueueMembers(s, q);
    if Q(s, q) != [] {
      assert Unique(Q(s, q));
      WakeOnePlaces(s, q);
      hide PlaceBase, WokeAll, WakeOne;
      WakeAllPlaces(WakeOne(s, q), q);
      WokeAllStep(s, q, WakeOne(s, q), WakeAll(s, q));
    }
  }

  lemma WokenForward(s: Kernel, s': Kernel, ws: seq<Pid>)
    requires PlaceBase(s) && s'.ready == s.ready + ws && s'.procs.Keys == s.procs.Keys
    requires s'.current == s.current && s'.idle == s.idle && s'.init == s.init && s'.clock == s.clock
    requires forall p :: p in ws ==> p in s.procs && s.procs[p].state.Blocked?
    requires forall p :: p in s.procs && p !in ws ==> s'.procs[p].state == s.procs[p].state
    ensures Forward(s, s')
  {
    assert forall p :: p in s'.ready <==> p in s.ready || p in ws;
  }
}
