/** Every step keeps the queues, the ready queue and the states of the processes in agreement. */
module PlaceProofs {
  import opened Common
  import opened KernelState
  import opened KernelInvariants

  // ---------- what does not touch the queues ----------

  predicate SameParking(a: Pcb, b: Pcb) {
    && b.blockQueue == a.blockQueue && b.delayUntil == a.delayUntil
    && b.waitingForChild == a.waitingForChild && b.ttyId == a.ttyId
  }

  ghost predicate SameParkings(s: Kernel, s': Kernel) {
    && s'.procs.Keys == s.procs.Keys
    && (forall t: nat :: Term(s', t).writer == Term(s, t).writer)
    && (forall q :: Q(s', q) == Q(s, q))
    && (forall p :: p in s.procs ==> SameParking(s.procs[p], s'.procs[p]))
  }

  lemma ParkingsKept(s: Kernel, s': Kernel)
    requires QueuesAgree(s) && WritersAgree(s) && SameParkings(s, s')
    ensures QueuesAgree(s') && WritersAgree(s')
    ensures forall p :: p in s.procs ==> Parks(s', p) == Parks(s, p)
  {
  }

  lemma ParksAgreeKept(s: Kernel, s': Kernel)
    requires QueuesAgree(s) && WritersAgree(s) && SameParkings(s, s')
    requires forall p :: p in s.procs ==> ParksAgree(s, p)
    requires forall p :: p in s.procs ==> (s'.procs[p].state.Blocked? <==> s.procs[p].state.Blocked?)
    ensures QueuesAgree(s') && WritersAgree(s')
    ensures forall p :: p in s'.procs ==> ParksAgree(s', p)
  {
    ParkingsKept(s, s');
    hide QueuesAgree, WritersAgree, SameParkings, Parks;
    forall p | p in s'.procs ensures ParksAgree(s', p) {
      assert ParksAgree(s, p);
    }
  }

  lemma ReadyKept(s: Kernel, s': Kernel)
    requires ReadyAgrees(s) && RunningAgrees(s) && s'.procs.Keys == s.procs.Keys
    requires s'.ready == s.ready && s'.current == s.current && s'.idle == s.idle && s'.init == s.init
    requires forall p :: p in s.procs ==> s'.procs[p].state == s.procs[p].state
    ensures ReadyAgrees(s') && RunningAgrees(s')
  {
  }

  /** Changing what user code sees, the kin, the line buffers or the continuation moves nobody. */
  lemma PlacesKept(s: Kernel, s': Kernel)
    requires PlaceBase(s) && SameParkings(s, s')
    requires s'.ready == s.ready && s'.current == s.current && s'.idle == s.idle && s'.init == s.init
    requires forall p :: p in s.procs ==> s'.procs[p].state == s.procs[p].state
    ensures PlaceBase(s')
  {
    hide QueuesAgree, WritersAgree, ReadyAgrees, RunningAgrees, ParksAgree;
    ReadyKept(s, s');
    ParksAgreeKept(s, s');
  }

  // ---------- making ready ----------

  lemma SetReadyAgrees(s: Kernel, p: Pid, pcb: Pcb)
    requires ReadyAgrees(s) && RunningAgrees(s) && p in s.procs && p != s.current && s.procs[p].state.Blocked?
    ensures p != s.idle && p !in s.ready
    ensures var s' := SetProc(s, p, pcb.(state := Ready)).(ready := s.ready + [p]);
            ReadyAgrees(s') && RunningAgrees(s')
  {
  }

  lemma MakeReadyParks(s0: Kernel, s1: Kernel, p: Pid, s': Kernel)
    requires forall x :: x in s0.procs ==> ParksAgree(s0, x)
    requires s1.procs.Keys == s0.procs.Keys && s'.procs.Keys == s0.procs.Keys
    requires forall x :: x in s0.procs ==> Parks(s', x) == Parks(s1, x)
    requires p in s0.procs && Parks(s1, p) == 0 && s'.procs[p].state.Ready?
    requires forall x :: x in s0.procs && x != p ==> Parks(s1, x) == Parks(s0, x) && s'.procs[x].state == s0.procs[x].state
    ensures forall x :: x in s'.procs ==> ParksAgree(s', x)
  {
    hide Parks;
    forall x | x in s'.procs ensures ParksAgree(s', x) {
      assert ParksAgree(s0, x);
    }
  }

  /**
   * Process p, taken out of the one thing that held it back in s0, is made ready; s is s0 with the
   * queue or the terminal it was taken from changed.
   */
  lemma MakeReadyPlaces(s0: Kernel, s: Kernel, p: Pid, pcb: Pcb)
    requires PlaceBase(s0) && s == s0.(queues := s.queues, terms := s.terms)
    requires QueuesAgree(SetProc(s, p, pcb)) && WritersAgree(SetProc(s, p, pcb))
    requires p in s.procs && s.procs[p].state.Blocked? && p != s.current && pcb.state.Blocked?
    requires Parks(SetProc(s, p, pcb), p) == 0
    requires forall x :: x in s.procs && x != p ==> Parks(SetProc(s, p, pcb), x) == Parks(s0, x)
    ensures PlaceBase(MakeReady(s, p, pcb))
    ensures MakeReady(s, p, pcb) == SetProc(s, p, pcb.(state := Ready)).(ready := s.ready + [p])
  {
    hide QueuesAgree, WritersAgree, ReadyAgrees, RunningAgrees, Parks, ParksAgree;
    ReadyKept(s0, s);
    SetReadyAgrees(s, p, pcb);
    var s' := MakeReady(s, p, pcb);
    assert SameParkings(SetProc(s, p, pcb), s');
    ParkingsKept(SetProc(s, p, pcb), s');
    MakeReadyParks(s0, SetProc(s, p, pcb), p, s');
  }

  lemma PoppedQueues(s: Kernel, q: QueueId, pcb: Pcb)
    requires QueuesAgree(s) && Q(s, q) != [] && pcb.blockQueue.None?
    ensures var p := Q(s, q)[0]; p in s.procs && s.procs[p].blockQueue == Some(q)
    ensures QueuesAgree(SetProc(SetQ(s, q, Q(s, q)[1..]), Q(s, q)[0], pcb))
  {
    var p := Q(s, q)[0];
    assert Unique(Q(s, q));
    assert forall x :: x in Q(s, q) <==> x == p || x in Q(s, q)[1..];
    var s' := SetProc(SetQ(s, q, Q(s, q)[1..]), p, pcb);
    assert forall r :: Q(s', r) == if r == q then Q(s, q)[1..] else Q(s, r);
    assert Unique(Q(s, q)[1..]);
  }

  lemma QueuedIsParked(s: Kernel, p: Pid)
    requires PlaceBase(s) && p in s.procs && s.procs[p].blockQueue.Some?
    ensures s.procs[p].state.Blocked? && s.procs[p].delayUntil == 0 && !s.procs[p].waitingForChild && !IsWriter(s, p)
  {
    assert ParksAgree(s, p);
  }

  lemma QueueMembers(s: Kernel, q: QueueId)
    requires PlaceBase(s)
    ensures forall p :: p in Q(s, q) ==> p in s.procs && s.procs[p].blockQueue == Some(q) && s.procs[p].state.Blocked?
  {
    hide ReadyAgrees, RunningAgrees, WritersAgree;
    forall p | p in Q(s, q) ensures p in s.procs && s.procs[p].blockQueue == Some(q) && s.procs[p].state.Blocked? {
      assert ParksAgree(s, p);
    }
  }

  /** A process that is no terminal's writer changes only its own block_queue. */
  lemma UnqueuedParks(s: Kernel, s': Kernel, p: Pid)
    requires WritersAgree(s) && s'.terms == s.terms && p in s.procs
    requires s'.procs == s.procs[p := Proc(s', p)] && SameParking(s.procs[p].(blockQueue := None), Proc(s', p))
    requires s.procs[p].delayUntil == 0 && !s.procs[p].waitingForChild && !IsWriter(s, p)
    ensures WritersAgree(s') && Parks(s', p) == 0
    ensures forall x :: x in s.procs && x != p ==> Parks(s', x) == Parks(s, x)
  {
    assert forall t :: Term(s', t) == Term(s, t);
    forall t: nat | Term(s, t).writer.Some? ensures s'.procs[Term(s, t).writer.value].ttyId == t {
    }
  }

  /** The head of queue q leaves it for the end of the ready queue. */
  lemma PopToReady(s: Kernel, q: QueueId, pcb: Pcb)
    requires PlaceBase(s) && !Cur(s).state.Blocked? && Q(s, q) != []
    requires SameParking(Proc(s, Q(s, q)[0]).(blockQueue := None), pcb) && pcb.state.Blocked?
    ensures var s' := MakeReady(SetQ(s, q, Q(s, q)[1..]), Q(s, q)[0], pcb);
            && PlaceBase(s')
            && s' == SetProc(SetQ(s, q, Q(s, q)[1..]), Q(s, q)[0], pcb.(state := Ready)).(ready := s.ready + [Q(s, q)[0]])
  {
    hide QueuesAgree, WritersAgree, ReadyAgrees, RunningAgrees, Parks, ParksAgree, MakeReady, IsWriter;
    var p := Q(s, q)[0];
    PoppedQueues(s, q, pcb);
    QueuedIsParked(s, p);
    UnqueuedParks(s, SetProc(SetQ(s, q, Q(s, q)[1..]), p, pcb), p);
    MakeReadyPlaces(s, SetQ(s, q, Q(s, q)[1..]), p, pcb);
  }

  /** What WakeOne makes of the PCB of the process it takes off a queue. */
  function Awake(pcb: Pcb): Pcb {
    pcb.(blockQueue := None, state := Ready).Returning(SUCCESS)
  }

  lemma WakeOnePlaces(s: Kernel, q: QueueId)
    requires PlaceBase(s) && !Cur(s).state.Blocked?
    ensures PlaceBase(WakeOne(s, q))
    ensures Q(s, q) != [] ==>
      var p := Q(s, q)[0];
      && p in s.procs && p != s.current && s.procs[p].blockQueue == Some(q)
      && WakeOne(s, q) == s.(procs := s.procs[p := Awake(s.procs[p])],
                             queues := s.queues[q := Q(s, q)[1..]], ready := s.ready + [p])
  {
    if Q(s, q) != [] {
      var p := Q(s, q)[0];
      assert p in Q(s, q);
      QueuedIsParked(s, p);
      hide PlaceBase, Parks;
      PopToReady(s, q, s.procs[p].(blockQueue := None).Returning(SUCCESS));
    }
  }
}
