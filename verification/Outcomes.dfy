/** How a call ends: it answers its caller or puts it to sleep, and wakes others, told field by field. */
module Outcomes {
  import opened Common
  import opened KernelState
  import opened KernelSteps
  import opened KernelInvariants
  import IpcProofs
  import LifeProofs
  import OperationPlaces
  import opened RunTheorems

  // ---------- answering and sleeping ----------

  /** An id names the object of its slot, a terminal number its terminal, a queue what is in it; a pid its PCB. */
  lemma Lookups(s: Kernel, i: int, q: QueueId, p: Pid)
    ensures if 0 <= i < |s.objects| then Obj(s, i) == s.objects[i] else Obj(s, i).Free?
    ensures 0 <= i < |s.terms| ==> Term(s, i) == s.terms[i]
    ensures if q in s.queues then Q(s, q) == s.queues[q] else Q(s, q) == []
    ensures p in s.procs ==> Proc(s, p) == s.procs[p]
    ensures s.current in s.procs ==> Cur(s) == s.procs[s.current]
  {
  }

  /** The state s in which the caller goes on in its program with answer r. */
  function Answering(s: Kernel, r: int): Kernel
    requires s.current in s.procs
  {
    var pcb := s.procs[s.current];
    s.(procs := s.procs[s.current := pcb.(cont := ToUser, user := pcb.user.(result := r))])
  }

  /** The state s in which the caller's buffer holds `got`. */
  function Filling(s: Kernel, got: seq<Byte>): Kernel
    requires s.current in s.procs
  {
    s.(procs := s.procs[s.current := s.procs[s.current].(user := s.procs[s.current].user.(got := got))])
  }

  /** The state s in which the kernel has stored a word for the caller. */
  function Storing(s: Kernel, word: int): Kernel
    requires s.current in s.procs
  {
    s.(procs := s.procs[s.current := s.procs[s.current].(user := s.procs[s.current].user.(stored := word))])
  }

  /** The state s in which the caller holds lock l. */
  function Holding(s: Kernel, l: nat): Kernel
    requires s.current in s.procs
  {
    s.(procs := s.procs[s.current := s.procs[s.current].(user := s.procs[s.current].user.(held := s.procs[s.current].user.held + {l}))])
  }

  /**
   * The caller no longer runs, its PCB being pcb, and the head of the ready queue runs, or idle if that is empty; nothing else in s
   * has changed.
   */
  ghost predicate Sleeps(s: Kernel, pcb: Pcb, s': Kernel) {
    && s.current in s.procs && s'.procs.Keys == s.procs.Keys
    && s' == s.(procs := s'.procs, ready := s'.ready, current := s'.current)
    && (if s.ready == [] then s'.current == s.idle && s'.ready == [] else s'.current == s.ready[0] && s'.ready == s.ready[1..])
    && s'.current != s.current && s'.procs[s.current] == pcb
    && forall p :: p in s.procs && p != s.current ==>
         s'.procs[p] == if p == s'.current then s.procs[p].(state := Running) else s.procs[p]
  }

  /** The caller sleeps at the end of queue q, to continue with c. */
  ghost predicate ParksAt(s: Kernel, q: QueueId, c: Cont, s': Kernel) {
    && s.current in s.procs
    && Sleeps(s.(queues := s.queues[q := Q(s, q) + [s.current]]),
              s.procs[s.current].(state := Blocked, blockQueue := Some(q), cont := c), s')
  }

  /** All that ProcessSchedule relies on when the caller has just gone to sleep. */
  ghost predicate Restful(s: Kernel) {
    && s.current in s.procs && s.current != s.idle && s.current !in s.ready
    && s.idle in s.procs && s.procs[s.idle].state.Running?
    && (forall p :: p in s.ready ==> p in s.procs && p != s.idle)
    && (forall p :: p in s.procs && s.procs[p].delayUntil != 0 ==> s.procs[p].delayUntil > s.clock)
  }

  lemma RestfulOf(s: Kernel)
    requires PlaceInv(s)
    ensures s.current in s.procs && (s.current != s.idle ==> Restful(s))
  {
    hide QueuesAgree, WritersAgree, ParksAgree, Unique;
  }

  lemma {:induction false} NobodyDue(s: Kernel, i: nat)
    requires forall p :: !DelayOver(s, p)
    ensures WakeDelayed(s, i) == s
    decreases MAX_PROCS - i
  {
    if i < MAX_PROCS {
      NobodyDue(s, i + 1);
    }
  }

  lemma SleepIs(s: Kernel, pcb: Pcb)
    requires Restful(s) && !pcb.state.Running? && (pcb.delayUntil != 0 ==> pcb.delayUntil > s.clock)
    ensures Sleeps(s, pcb, Schedule(SetCur(s, pcb)))
  {
    var s1 := SetCur(s, pcb);
    NobodyDue(s1, 0);
    assert s.ready != [] ==> s.ready[0] in s.ready;
  }

  lemma BlockIs(s: Kernel, q: QueueId, c: Cont)
    requires Restful(s)
    ensures ParksAt(s, q, c, BlockOn(s, q, c))
  {
    hide Schedule, Sleeps;
    var s1 := s.(queues := s.queues[q := Q(s, q) + [s.current]]);
    var pcb := s.procs[s.current].(state := Blocked, blockQueue := Some(q), cont := c);
    assert Enqueue(s, q, c) == SetCur(s1, pcb);
    SleepIs(s1, pcb);
  }

  lemma ReachedRests(s: Kernel)
    requires Reached(s)
    ensures Inv(s) && PlaceInv(s) && s.current in s.procs && (s.current != s.idle ==> Restful(s))
  {
    hide Reached, PlaceInv, LockInv, PipeInv, FamilyInv, TtyInv, Restful;
    ReachedInv(s);
    RestfulOf(s);
  }

  lemma ReturnIs(s: Kernel, r: int)
    requires s.current in s.procs
    ensures Return(s, r) == Answering(s, r)
  {
  }

  lemma NoDelay(s: Kernel)
    requires Inv(s)
    ensures s.current in s.procs && s.procs[s.current].delayUntil == 0 && s.procs[s.current].blockQueue.None?
  {
    hide PlaceInv, LockInv, PipeInv, FamilyInv, TtyInv;
    NoDelayOf(s);
  }

  lemma NoDelayOf(s: Kernel)
    requires PlaceInv(s)
    ensures s.current in s.procs && s.procs[s.current].delayUntil == 0 && s.procs[s.current].blockQueue.None?
  {
    OperationPlaces.CurrentFree(s);
  }

  /** A call that slept continues where it did. */
  lemma ResumesAs(s: Kernel)
    requires Legal(s, EvResume)
    ensures Step(s, EvResume) ==
      match Cur(s).cont
      case ToUser => s
      case InAcquire(l) => ResumeAcquire(s, l)
      case InCvarWait(v, l) => ResumeCvarWait(s, v, l)
      case InPipeRead(id, len) => ResumePipeRead(s, id, len)
      case InTtyRead => ResumeTtyRead(s)
      case InTtyWrite => ResumeTtyWrite(s)
      case InDelay => Return(s, SUCCESS)
      case InWait(want) => ResumeWait(s, want)
  {
    hide ResumeAcquire, ResumeCvarWait, ResumePipeRead, ResumeTtyRead, ResumeTtyWrite, ResumeWait, Return;
  }

  lemma ResumerNotIdle(s: Kernel)
    requires Inv(s) && !Cur(s).cont.ToUser?
    ensures s.current != s.idle
  {
    hide Inv, LifeProofs.Whole, IpcProofs.Before;
    InvParts(s);
    IpcProofs.ResumingIsNotIdle(s);
  }

  // ---------- waking ----------

  /** PCB of a waiter that is woken with SUCCESS. */
  function Roused(pcb: Pcb): Pcb {
    pcb.(blockQueue := None, state := Ready, user := pcb.user.(result := SUCCESS))
  }

  /** Whoever is in a wait queue sleeps, and is in no other queue. */
  lemma QueuedSleeps(s: Kernel, q: QueueId, p: Pid)
    requires PlaceInv(s) && p in Q(s, q)
    ensures p in s.procs && p != s.current && p != s.idle && p !in s.ready && s.procs[p].state.Blocked? && s.procs[p].blockQueue == Some(q)
    ensures Unique(Q(s, q))
  {
    hide Unique, WritersAgree;
    assert ParksAgree(s, p);
  }

  /** The oldest waiter of q, if any, is last in the ready queue. */
  function OneRoused(s: Kernel, q: QueueId): Kernel {
    var waiters := Q(s, q);
    if waiters == [] then s
    else s.(procs := s.procs[waiters[0] := Roused(Proc(s, waiters[0]))], ready := s.ready + [waiters[0]], queues := s.queues[q := waiters[1..]])
  }

  /** All waiters of q are at the end of the ready queue, in their order. */
  ghost predicate AllRoused(s: Kernel, q: QueueId, s': Kernel) {
    && s' == s.(procs := s'.procs, queues := s'.queues, ready := s.ready + Q(s, q))
    && s'.procs.Keys == s.procs.Keys && s'.queues == (if Q(s, q) == [] then s.queues else s.queues[q := []])
    && forall p :: p in s.procs ==> s'.procs[p] == if p in Q(s, q) then Roused(s.procs[p]) else s.procs[p]
  }

  lemma RouseIs(s: Kernel, q: QueueId)
    requires Q(s, q) != [] ==>
      var w := Q(s, q)[0]; w in s.procs && w != s.idle && w !in s.ready && s.procs[w].state.Blocked?
    ensures WakeOne(s, q) == OneRoused(s, q)
  {
  }

  /** The processes ws sleep, each of them once. */
  ghost predicate Asleep(s: Kernel, ws: seq<Pid>) {
    Unique(ws) && forall w :: w in ws ==> w in s.procs && w != s.idle && w !in s.ready && s.procs[w].state.Blocked?
  }

  lemma {:induction false} RouseAllIs(s: Kernel, q: QueueId)
    requires Asleep(s, Q(s, q))
    ensures AllRoused(s, q, WakeAll(s, q))
    decreases |Q(s, q)|
  {
    if Q(s, q) == [] {
      assert s.ready + [] == s.ready;
    } else {
      var w, rest := Q(s, q)[0], Q(s, q)[1..];
      assert w in Q(s, q);
      RouseIs(s, q);
      var s1 := OneRoused(s, q);
      AsleepRest(s, q);
      RouseAllIs(s1, q);
      hide Asleep, WakeAll;
      AllRousedThen(s, q, WakeAll(s1, q));
      WakesFirst(s, q);
    }
  }

  lemma WakesFirst(s: Kernel, q: QueueId)
    requires Q(s, q) != []
    ensures WakeAll(s, q) == WakeAll(WakeOne(s, q), q)
  {
  }

  lemma AsleepRest(s: Kernel, q: QueueId)
    requires Asleep(s, Q(s, q)) && Q(s, q) != []
    ensures Q(OneRoused(s, q), q) == Q(s, q)[1..] && Asleep(OneRoused(s, q), Q(s, q)[1..]) && Q(s, q)[0] !in Q(s, q)[1..]
  {
    var rest := Q(s, q)[1..];
    forall i | 0 <= i < |rest| ensures rest[i] == Q(s, q)[i + 1] && rest[i] in Q(s, q) && rest[i] != Q(s, q)[0] {
    }
  }

  lemma AllRousedThen(s: Kernel, q: QueueId, s': Kernel)
    requires Q(s, q) != [] && Q(s, q)[0] in s.procs && Q(s, q)[0] !in Q(s, q)[1..]
    requires Q(OneRoused(s, q), q) == Q(s, q)[1..] && AllRoused(OneRoused(s, q), q, s')
    ensures AllRoused(s, q, s')
  {
    var w, rest := Q(s, q)[0], Q(s, q)[1..];
    assert Q(s, q) == [w] + rest;
    assert s.ready + [w] + rest == s.ready + Q(s, q);
    assert s.queues[q := rest][q := []] == s.queues[q := []];
    if rest == [] {
      assert s.queues[q := rest] == s.queues[q := []];
    }
  }

  lemma AsleepOf(s: Kernel, q: QueueId)
    requires PlaceInv(s)
    ensures Asleep(s, Q(s, q))
  {
    hide PlaceInv, Unique;
    if Q(s, q) == [] {
      assert Unique<Pid>([]) by { UniqueNone(); }
    } else {
      forall w | w in Q(s, q) ensures w in s.procs && w != s.idle && w !in s.ready && s.procs[w].state.Blocked? && Unique(Q(s, q)) {
        QueuedSleeps(s, q, w);
      }
      assert Q(s, q)[0] in Q(s, q);
    }
  }

  lemma UniqueNone()
    ensures Unique<Pid>([])
  {
  }

  lemma HeadAsleep(s: Kernel, q: QueueId)
    requires Asleep(s, Q(s, q)) && Q(s, q) != []
    ensures var w := Q(s, q)[0]; w in s.procs && w != s.idle && w !in s.ready && s.procs[w].state.Blocked?
  {
    assert Q(s, q)[0] in Q(s, q);
  }
}
