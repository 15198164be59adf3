/**
 * The kernel as the source has it: global variables that system calls and traps update in place, with its
 * loops, and every process queue a pointer-linked ring (KernelQueues). `State` is the state all this stands for;
 * each method is proved to compute on it the state function of the same name in KernelState or KernelSteps, so
 * that what is proved about runs of those functions holds of this object.
 */
module KernelObject {
  import opened Common
  import opened KernelState
  import opened KernelSteps
  import opened KernelInvariants
  import opened KernelQueues
  import IpcProofs
  import OperationPlaces
  import RunTheorems

  /** Process p is in no wait queue. */
  ghost predicate Unparked(s: Kernel, p: Pid) {
    forall q :: p !in Q(s, q)
  }

  /** What ProcessDestroy may rely on: nobody running, queued where its PCB says, its kin in the table. */
  ghost predicate Destroyable(s: Kernel, p: Pid) {
    && p in s.procs && p != s.current && p != s.idle && Unique(s.ready)
    && (forall q :: Unique(Q(s, q)) && (p in Q(s, q) ==> s.procs[p].blockQueue == Some(q)))
    && (s.procs[p].blockQueue.Some? ==> p in Q(s, s.procs[p].blockQueue.value))
    && (s.procs[p].kin.parent.Some? ==> s.procs[p].kin.parent.value in s.procs && s.procs[p].kin.parent != Some(p))
    && (forall c :: c in s.procs[p].kin.children ==> c in s.procs)
  }

  lemma StillDestroyable(s: Kernel, s': Kernel, p: Pid)
    requires Destroyable(s, p) && s'.queues == s.queues && s'.ready == s.ready && Proc(s', p).blockQueue == s.procs[p].blockQueue
    ensures Unique(s'.ready) && (Proc(s', p).blockQueue.Some? ==> p in Q(s', Proc(s', p).blockQueue.value))
    ensures forall q :: Unique(Q(s', q)) && (p in Q(s', q) ==> Proc(s', p).blockQueue == Some(q))
  {
    assert forall q :: Q(s', q) == Q(s, q);
  }

  /** The zombies among the caller's children can be reaped. */
  ghost predicate Reapable(s: Kernel) {
    forall c :: c in Cur(s).kin.children && Proc(s, c).state.Zombie? ==> Destroyable(s, c)
  }

  lemma ReapableStill(s: Kernel, pcb: Pcb)
    requires Reapable(s) && s.current in s.procs && pcb.kin == Cur(s).kin && pcb.state == Cur(s).state && pcb.blockQueue == Cur(s).blockQueue
    ensures Reapable(SetCur(s, pcb))
  {
    var s' := SetCur(s, pcb);
    assert forall q :: Q(s', q) == Q(s, q);
    forall c | c in Cur(s').kin.children && Proc(s', c).state.Zombie? ensures Destroyable(s', c) {
      assert Proc(s, c).state.Zombie? && Destroyable(s, c);
    }
  }

  /** The child is in nobody's way when its fork is undone. */
  lemma ChildDestroyable(s: Kernel, child: Pid)
    requires child !in s.procs && s.current in s.procs && s.idle in s.procs && Unique(s.ready)
    requires forall q :: Unique(Q(s, q)) && child !in Q(s, q)
    ensures var s1 := SetProc(s, child, BlankPcb.WithParent(Some(s.current)));
      Destroyable(SetCur(s1, Cur(s1).WithChildren(Cur(s1).kin.children + [child])), child)
  {
    var s1 := SetProc(s, child, BlankPcb.WithParent(Some(s.current)));
    var s2 := SetCur(s1, Cur(s1).WithChildren(Cur(s1).kin.children + [child]));
    assert forall q :: Q(s2, q) == Q(s, q);
  }

  /** What the handlers ask of the state, all of it part of the invariant. */
  ghost predicate Handlers(s: Kernel) {
    && Unparked(s, s.current) && Reapable(s) && Unique(s.ready) && (forall q :: Unique(Q(s, q)))
    && (forall q, p :: p in Q(s, q) ==> p in s.procs)
    && s.current in s.procs && (forall c :: c in s.procs[s.current].kin.children ==> c in s.procs)
    && (forall i: nat :: i < |s.objects| && s.objects[i].Free? ==> Q(s, ObjectQ(i)) == [])
    && (forall i: nat :: LockOwner(s, i).Some? ==> LockOwner(s, i).value in s.procs)
    && (forall t: nat :: Term(s, t).writer.Some? ==> Term(s, t).writer.value in s.procs)
  }

  lemma ReaderTerminal(s: Kernel)
    requires Inv(s) && Cur(s).cont.InTtyRead?
    ensures Cur(s).ttyId < |s.terms|
  {
    hide LockInv, PipeInv, FamilyInv, QueuesAgree, ReadyAgrees, WritersAgree, ParksAgree;
    assert ConsoleRight(s.procs[s.current], |s.terms|);
  }

  /** Queues and PCBs agree, and the running process is in no queue. */
  lemma PlacesSay(s: Kernel)
    requires PlaceInv(s)
    ensures s.current in s.procs && !Cur(s).state.Zombie? && Unparked(s, s.current) && Unique(s.ready)
    ensures s.idle in s.procs && s.procs[s.idle].state.Running?
    ensures forall q :: Unique(Q(s, q))
    ensures forall q, p :: p in Q(s, q) ==> p in s.procs && s.procs[p].blockQueue == Some(q)
    ensures forall p :: p in s.procs && s.procs[p].blockQueue.Some? ==> p in Q(s, s.procs[p].blockQueue.value)
    ensures forall t: nat :: Term(s, t).writer.Some? ==> Term(s, t).writer.value in s.procs
  {
    hide Unique, ParksAgree, DelaysAhead;
    OperationPlaces.CurrentFree(s);
  }

  lemma KinSay(s: Kernel)
    requires FamilyInv(s) && s.current in s.procs
    ensures forall c :: c in Cur(s).kin.children ==> c in s.procs && s.procs[c].kin.parent == Some(s.current)
    ensures forall p :: p in s.procs && s.procs[p].state.Zombie? ==> s.procs[p].kin.children == []
  {
    hide Unique;
    assert forall c :: c in Cur(s).kin.children ==> HasChild(s, s.current, c) && HasParent(s, c, s.current);
  }

  lemma OwnersSay(s: Kernel)
    requires LockInv(s)
    ensures forall i: nat :: LockOwner(s, i).Some? ==> LockOwner(s, i).value in s.procs
  {
    hide WaitersRight, HoldersRight, ContsRight;
    forall i: nat | LockOwner(s, i).Some? ensures LockOwner(s, i).value in s.procs {
      assert Obj(s, i).Lock? && Obj(s, i).owner.Some?;
    }
  }

  /** The invariant gives the handlers all they ask for. */
  lemma HandlersOf(s: Kernel)
    requires Inv(s)
    ensures Handlers(s)
  {
    hide TtyInv, PipeInv, LockInv, FamilyInv, PlaceInv, Unparked, Unique, IpcProofs.Before;
    PlacesSay(s);
    KinSay(s);
    OwnersSay(s);
    RunTheorems.InvParts(s);
    forall i: nat | i < |s.objects| && s.objects[i].Free? ensures Q(s, ObjectQ(i)) == [] {
      IpcProofs.FreeSlotUnqueued(s, i);
    }
    forall c | c in Cur(s).kin.children && Proc(s, c).state.Zombie? ensures Destroyable(s, c) {
      assert c in s.procs && s.procs[c].kin.parent == Some(s.current) && s.procs[c].kin.children == [];
    }
  }

  lemma SlotsFree(s: Kernel)
    requires Inv(s)
    ensures Unparked(s, s.current) && forall i: nat :: i < |s.objects| && s.objects[i].Free? ==> Q(s, ObjectQ(i)) == []
  {
    hide Inv, Unparked, Reapable;
    HandlersOf(s);
  }

  lemma BootedState(s: Kernel)
    requires s.idle != s.init && s.idle < MAX_PROCS && s.init < MAX_PROCS
    requires s.procs == map[s.idle := BlankPcb.(state := Running), s.init := BlankPcb.(state := Running)]
    requires s.ready == [] && s.current == s.init && (forall q :: q in s.queues ==> s.queues[q] == []) && s.clock == 0
    requires s.objects == seq(IPC_MAX_OBJECTS, _ => Free) && s.terms == seq(NUM_TERMINALS, _ => BlankTerminal)
    ensures Booted(s)
  {
  }

  lemma SameQueues(s: Kernel, s': Kernel, p: Pid)
    requires Unparked(s, p) && s'.queues == s.queues
    ensures Unparked(s', p)
  {
    forall q ensures p !in Q(s', q) {
      assert Q(s', q) == Q(s, q);
    }
  }

  /** All wait queues there are: one for each object, two for each terminal. */
  function QueueIds(): (ids: set<QueueId>)
    ensures forall i: nat :: i < IPC_MAX_OBJECTS ==> ObjectQ(i) in ids
    ensures forall t: nat :: t < NUM_TERMINALS ==> ReadQ(t) in ids && WriteQ(t) in ids
  {
    (set i | 0 <= i < IPC_MAX_OBJECTS :: ObjectQ(i)) + (set t | 0 <= t < NUM_TERMINALS :: ReadQ(t))
    + (set t | 0 <= t < NUM_TERMINALS :: WriteQ(t))
  }

  class Yalnix {
    var procs: map<Pid, Pcb>
    var current: Pid
    /** The ready queue and all wait queues. */
    const queues: Queues
    var objects: seq<Object>
    var terms: seq<Terminal>
    var clock: nat
    const idle: Pid
    const init: Pid

    /** Everything a step can change, as one value. */
    ghost function State(): Kernel
      reads this, queues
    {
      Kernel(procs, queues.readyPids, current, queues.waitPids, objects, terms, clock, idle, init)
    }

    /** Every PCB has its queue entries, and every object and terminal its queues. */
    ghost predicate Linked()
      reads this, queues, queues.Repr
    {
      && this !in queues.Repr && queues.Valid()
      && queues.readyEntry.Keys == procs.Keys && current in procs && idle in procs
      && (forall i: nat :: i < |objects| ==> ObjectQ(i) in queues.waits)
      && (forall t: nat :: t < |terms| ==> ReadQ(t) in queues.waits && WriteQ(t) in queues.waits)
    }

    ghost predicate Valid()
      reads this, queues, queues.Repr
    {
      Linked() && Inv(State())
    }

    constructor (idlePid: Pid, initPid: Pid)
      requires idlePid != initPid && idlePid < MAX_PROCS && initPid < MAX_PROCS
      ensures Booted(State()) && Valid() && fresh(queues) && fresh(queues.Repr)
    {
      hide Queues.Valid, Inv, QueueIds;
      idle := idlePid;
      init := initPid;
      procs := map[idlePid := BlankPcb.(state := Running), initPid := BlankPcb.(state := Running)];
      var q := new Queues(QueueIds(), {idlePid, initPid});
      queues := q;
      current := initPid;
      objects := seq(IPC_MAX_OBJECTS, _ => Free);
      terms := seq(NUM_TERMINALS, _ => BlankTerminal);
      clock := 0;
      new;
      BootedState(State());
      RunTheorems.BootInv(State());
    }

    // ---------- PCBs, objects, terminals ----------

    function ProcAt(p: Pid): (pcb: Pcb)
      reads this, queues
      ensures pcb == Proc(State(), p)
    {
      if p in procs then procs[p] else BlankPcb
    }

    function Caller(): (pcb: Pcb)
      reads this, queues
      ensures pcb == Cur(State())
    {
      ProcAt(current)
    }

    function ObjectAt(id: int): (o: Object)
      reads this, queues
      ensures o == Obj(State(), id)
    {
      if 0 <= id < |objects| then objects[id] else Free
    }

    function OwnerOf(l: int): (owner: Option<Pid>)
      reads this, queues
      ensures owner == LockOwner(State(), l)
    {
      match ObjectAt(l) case Lock(o) => o case _ => None
    }

    /** What Linked says of pids and queue names. */
    lemma Known()
      requires Linked()
      ensures current in procs && idle in procs && this !in queues.Repr && queues !in queues.Repr
      ensures (forall i: nat :: i < |objects| ==> ObjectQ(i) in queues.waits)
      ensures forall t: nat :: t < |terms| ==> ReadQ(t) in queues.waits && WriteQ(t) in queues.waits
      ensures forall q :: q in queues.waitPids <==> q in queues.waits
    {
    }

    method PutProc(p: Pid, pcb: Pcb)
      requires Linked() && p in procs
      modifies this`procs
      ensures Linked() && State() == SetProc(old(State()), p, pcb)
    {
      hide Queues.Valid;
      procs := procs[p := pcb];
    }

    method SetCurrent(pcb: Pcb)
      requires Linked()
      modifies this`procs
      ensures Linked() && State() == SetCur(old(State()), pcb)
    {
      PutProc(current, pcb);
    }

    method PutObject(id: nat, o: Object)
      requires Linked() && id < |objects|
      modifies this`objects
      ensures Linked() && State() == SetObj(old(State()), id, o)
    {
      hide Queues.Valid;
      objects := objects[id := o];
    }

    method PutTerm(t: nat, term: Terminal)
      requires Linked() && t < |terms|
      modifies this`terms
      ensures Linked() && State() == SetTerm(old(State()), t, term)
    {
      hide Queues.Valid;
      terms := terms[t := term];
    }

    method Answer(r: int)
      requires Linked()
      modifies this`procs
      ensures Linked() && State() == Return(old(State()), r)
    {
      hide Linked;
      SetCurrent(Caller().(cont := ToUser).Returning(r));
    }

    // ---------- the queues ----------

    method PushReady(p: Pid)
      requires Linked() && p in procs
      modifies queues`readyPids, queues.Repr
      ensures Linked() && queues.Repr == old(queues.Repr)
      ensures State() ==
        old(State()).(ready := if p in old(State()).ready then old(State()).ready else old(State()).ready + [p])
    {
      hide Queues.Valid;
      queues.MakeReady(p);
    }

    method PopReady() returns (head: Option<Pid>)
      requires Linked()
      modifies queues`readyPids, queues.Repr
      ensures Linked() && queues.Repr == old(queues.Repr) && (head.Some? ==> head.value in procs)
      ensures old(State()).ready == [] ==> head == None && State() == old(State())
      ensures old(State()).ready != [] ==>
        head == Some(old(State()).ready[0]) && State() == old(State()).(ready := old(State()).ready[1..])
    {
      hide Queues.Valid;
      head := queues.NextReady();
    }

    /** The caller goes to the end of queue q. */
    method Park(q: QueueId)
      requires Linked() && q in queues.waits && Unparked(State(), current)
      modifies queues`waitPids, queues.Repr
      ensures Linked() && queues.Repr == old(queues.Repr) && State() == SetQ(old(State()), q, Q(old(State()), q) + [current])
    {
      hide Queues.Valid;
      WaitsKnown();
      assert forall r :: r in queues.waits ==> queues.waitPids[r] == Q(State(), r);
      queues.Block(q, current);
    }

    lemma WaitsKnown()
      requires Linked()
      ensures queues.waitPids.Keys == queues.waits.Keys
    {
    }

    /** The first of queue q leaves it. */
    method Unpark(q: QueueId) returns (p: Option<Pid>)
      requires Linked() && q in queues.waits
      modifies queues`waitPids, queues.Repr
      ensures Linked() && queues.Repr == old(queues.Repr) && (p.Some? ==> p.value in procs)
      ensures Q(old(State()), q) == [] ==> p == None && State() == old(State())
      ensures Q(old(State()), q) != [] ==>
        p == Some(Q(old(State()), q)[0]) && State() == SetQ(old(State()), q, Q(old(State()), q)[1..])
    {
      hide Queues.Valid;
      WaitsKnown();
      p := queues.Wake(q);
    }

    method NobodyIn(q: QueueId) returns (empty: bool)
      requires Linked() && q in queues.waits
      ensures empty <==> Q(State(), q) == []
    {
      WaitsKnown();
      empty := queues.IsEmpty(q);
    }

    // ---------- src/process.c ----------

    /** pcb is the PCB of p as the caller has updated it. */
    method ProcessMakeReady(p: Pid, pcb: Pcb)
      requires Linked()
      modifies this`procs, queues`readyPids, queues.Repr
      ensures Linked() && queues.Repr == old(queues.Repr) && State() == MakeReady(old(State()), p, pcb)
    {
      hide Linked;
      Known();
      if p !in procs {
        return;
      }
      PutProc(p, pcb);
      if p == idle || pcb.state.Zombie? {
        return;
      }
      PutProc(p, pcb.(state := Ready));
      assert procs == old(procs)[p := pcb.(state := Ready)];
      PushReady(p);
    }

    method ProcessWakeDelayed()
      requires Linked()
      modifies this`procs, queues`readyPids, queues.Repr
      ensures Linked() && queues.Repr == old(queues.Repr) && State() == WakeDelayed(old(State()), 0)
    {
      hide Linked, MakeReady;
      Known();
      var i := 0;
      while i < MAX_PROCS
        invariant 0 <= i <= MAX_PROCS && Linked() && queues.Repr == old(queues.Repr)
        invariant WakeDelayed(State(), i) == WakeDelayed(old(State()), 0)
      {
        if i in procs && procs[i].state.Blocked? && procs[i].delayUntil != 0 && procs[i].delayUntil <= clock {
          ProcessMakeReady(i, procs[i].(delayUntil := 0));
        }
        i := i + 1;
      }
    }

    method ProcessSchedule()
      requires Linked()
      modifies this`procs, this`current, queues`readyPids, queues.Repr
      ensures Linked() && queues.Repr == old(queues.Repr) && State() == Schedule(old(State()))
    {
      hide Linked, WakeDelayed, MakeReady;
      Known();
      ProcessWakeDelayed();
      if current != idle && Caller().state.Running? {
        ProcessMakeReady(current, Caller());
      }
      var next := idle;
      var head := PopReady();
      Known();
      if head.Some? {
        next := head.value;
      }
      if next != current {
        SwitchTo(next);
      }
    }

    /** ProcessSwitch */
    method SwitchTo(next: Pid)
      requires Linked() && next in procs
      modifies this`procs, this`current
      ensures Linked() && State() == SetProc(old(State()), next, Proc(old(State()), next).(state := Running)).(current := next)
    {
      hide Queues.Valid;
      procs := procs[next := ProcAt(next).(state := Running)];
      current := next;
    }

    /** The loop of ProcessExitCurrent and ProcessDestroy that clears the parent of every child of p. */
    method OrphanChildren(p: Pid)
      requires Linked() && p in procs && forall c :: c in procs[p].kin.children ==> c in procs
      modifies this`procs
      ensures Linked() && State() == Orphan(old(State()), p)
    {
      hide Linked;
      while ProcAt(p).kin.children != []
        invariant Linked() && p in procs && forall c :: c in procs[p].kin.children ==> c in procs
        invariant Orphan(State(), p) == Orphan(old(State()), p)
        decreases |Proc(State(), p).kin.children|
      {
        var child := ProcAt(p).kin.children[0];
        PutProc(p, ProcAt(p).WithChildren(ProcAt(p).kin.children[1..]));
        PutProc(child, ProcAt(child).WithParent(None));
      }
    }

    lemma {:induction false} OrphanKeeps(s: Kernel, p: Pid)
      requires p in s.procs && forall c :: c in s.procs[p].kin.children ==> c in s.procs
      ensures Orphan(s, p) == s.(procs := Orphan(s, p).procs) && Orphan(s, p).procs.Keys == s.procs.Keys
      ensures Proc(Orphan(s, p), p).blockQueue == Proc(s, p).blockQueue
      decreases |Proc(s, p).kin.children|
    {
      var cs := Proc(s, p).kin.children;
      if cs != [] {
        var s1 := SetProc(s, p, Proc(s, p).WithChildren(cs[1..]));
        OrphanKeeps(SetProc(s1, cs[0], Proc(s1, cs[0]).WithParent(None)), p);
      }
    }

    method ProcessExitCurrent(status: int)
      requires Linked() && current in procs && forall c :: c in procs[current].kin.children ==> c in procs
      modifies this, queues`readyPids, queues`waitPids, queues.Repr
      ensures Linked() && queues.Repr == old(queues.Repr) && State() == Exit(old(State()), status)
    {
      hide Linked, Orphan, ReleaseAll, Schedule, MakeReady;
      Known();
      var p := current;
      OrphanKeeps(State(), p);
      OrphanChildren(p);
      IpcProcessExit(p);
      Known();
      PutProc(p, ProcAt(p).(kin := ProcAt(p).kin.(exitStatus := status), state := Zombie));
      var parent := ProcAt(p).kin.parent;
      if parent.Some? && ProcAt(parent.value).waitingForChild {
        ProcessMakeReady(parent.value, ProcAt(parent.value).(waitingForChild := false));
      }
      ProcessSchedule();
    }

    method ProcessDestroy(p: Pid)
      requires Linked() && Destroyable(State(), p)
      modifies this`procs, queues`readyPids, queues`waitPids, queues`readyEntry, queues`blockEntry, queues.Repr
      ensures Linked() && queues.Repr == old(queues.Repr) && State() == Destroy(old(State()), p)
    {
      hide Linked, Orphan, Without;
      Known();
      ghost var s := State();
      var parent := ProcAt(p).kin.parent;
      if parent.Some? {
        var children := ProcAt(parent.value).kin.children;
        PutProc(parent.value, ProcAt(parent.value).WithChildren(Without(children, p)));
      }
      OrphanKeeps(State(), p);
      OrphanChildren(p);
      StillDestroyable(s, State(), p);
      Forget(p, ProcAt(p).blockQueue);
    }

    /** The end of ProcessDestroy: out of the queues, and out of the table. */
    method Forget(p: Pid, q: Option<QueueId>)
      requires Linked() && p in procs && p != current && p != idle && Unique(State().ready)
      requires forall r :: Unique(Q(State(), r)) && (p in Q(State(), r) ==> q == Some(r))
      requires q.Some? ==> p in Q(State(), q.value)
      modifies this`procs, queues`readyPids, queues`waitPids, queues`readyEntry, queues`blockEntry, queues.Repr
      ensures Linked() && queues.Repr == old(queues.Repr)
      ensures var s1 := old(State()).(ready := Without(old(State()).ready, p));
        var s2 := if q.Some? then SetQ(s1, q.value, Without(Q(s1, q.value), p)) else s1;
        State() == s2.(procs := s2.procs - {p})
    {
      hide Queues.Valid, Without;
      WaitsKnown();
      assert forall r :: r in queues.waits ==> queues.waitPids[r] == Q(State(), r);
      WithoutMembers(queues.readyPids, p);
      queues.Unready(p);
      if q.Some? {
        WithoutMembers(queues.waitPids[q.value], p);
        queues.Unblock(q.value, p);
      }
      queues.Drop(p);
      procs := procs - {p};
    }

    // ---------- src/ipc.c ----------

    method BlockOnQueue(q: QueueId, c: Cont)
      requires Linked() && q in queues.waits && Unparked(State(), current)
      modifies this`procs, this`current, queues`readyPids, queues`waitPids, queues.Repr
      ensures Linked() && queues.Repr == old(queues.Repr) && State() == BlockOn(old(State()), q, c)
    {
      hide Linked, Schedule, Unparked;
      Known();
      SameQueues(State(), SetCur(State(), Caller().(state := Blocked, blockQueue := Some(q), cont := c)), current);
      SetCurrent(Caller().(state := Blocked, blockQueue := Some(q), cont := c));
      Park(q);
      ProcessSchedule();
    }

    method WakeFirst(q: QueueId) returns (woken: Option<Pid>)
      requires Linked() && q in queues.waits
      modifies this`procs, queues`readyPids, queues`waitPids, queues.Repr
      ensures Linked() && queues.Repr == old(queues.Repr) && State() == WakeOne(old(State()), q) && woken == Woken(old(State()), q)
    {
      hide Linked, MakeReady;
      Known();
      woken := Unpark(q);
      if woken.Some? {
        ProcessMakeReady(woken.value, ProcAt(woken.value).(blockQueue := None).Returning(SUCCESS));
      }
    }

    method WakeEverybody(q: QueueId)
      requires Linked() && q in queues.waits
      modifies this`procs, queues`readyPids, queues`waitPids, queues.Repr
      ensures Linked() && queues.Repr == old(queues.Repr) && State() == WakeAll(old(State()), q)
    {
      hide Linked, WakeOne;
      Known();
      var empty := NobodyIn(q);
      while !empty
        invariant Linked() && queues.Repr == old(queues.Repr) && (empty <==> Q(State(), q) == [])
        invariant WakeAll(State(), q) == WakeAll(old(State()), q)
        decreases |Q(State(), q)|
      {
        var _ := WakeFirst(q);
        empty := NobodyIn(q);
      }
    }

    method ReleaseLock(l: nat)
      requires Linked()
      requires Obj(State(), l).Lock? && (LockOwner(State(), l).Some? ==> LockOwner(State(), l).value in procs)
      modifies this`procs, this`objects, queues`readyPids, queues`waitPids, queues.Repr
      ensures Linked() && queues.Repr == old(queues.Repr) && State() == LockRelease(old(State()), l)
    {
      hide Linked, WakeOne;
      Known();
      var owner := OwnerOf(l);
      if owner.Some? {
        PutProc(owner.value, ProcAt(owner.value).WithHeld(ProcAt(owner.value).user.held - {l}));
      }
      PutObject(l, Lock(None));
      var next := WakeFirst(ObjectQ(l));
      WakeKeepsTable(old(State()), l);
      if next.Some? {
        PutObject(l, Lock(next));
      }
    }

    lemma WakeKeepsTable(s: Kernel, l: nat)
      ensures forall s1, q :: |WakeOne(s1, q).objects| == |s1.objects|
    {
    }

    method IpcProcessExit(p: Pid)
      requires Linked() && p in procs
      modifies this`procs, this`objects, queues`readyPids, queues`waitPids, queues.Repr
      ensures Linked() && queues.Repr == old(queues.Repr) && State() == ReleaseAll(old(State()), p, 0)
    {
      hide Linked, LockRelease;
      Known();
      var i := 0;
      while i < |objects|
        invariant 0 <= i && Linked() && queues.Repr == old(queues.Repr) && p in procs
        invariant |objects| == old(|objects|)
        invariant ReleaseAll(State(), p, i) == ReleaseAll(old(State()), p, 0)
        decreases |objects| - i
      {
        LockReleaseTable(State(), i);
        ReleaseProcs(State(), i);
        if objects[i] == Lock(Some(p)) {
          ReleaseLock(i);
        }
        i := i + 1;
      }
    }

    lemma LockReleaseTable(s: Kernel, l: nat)
      ensures Obj(s, l).Lock? ==> |LockRelease(s, l).objects| == |s.objects|
    {
    }

    lemma ReleaseProcs(s: Kernel, l: nat)
      ensures Obj(s, l).Lock? && (LockOwner(s, l).Some? ==> LockOwner(s, l).value in s.procs) ==> LockRelease(s, l).procs.Keys == s.procs.Keys
    {
    }

    method Grant(l: nat)
      requires Linked()
      modifies this`procs
      ensures Linked() && State() == Granted(old(State()), l)
    {
      hide Linked, Unparked;
      Known();
      SetCurrent(Caller().WithHeld(Caller().user.held + {l}));
      Answer(SUCCESS);
      assert procs == old(procs)[current := Proc(State(), current)];
    }

    method LockAcquireLoop(l: nat)
      requires Linked() && Unparked(State(), current)
      requires Obj(State(), l).Lock?
      modifies this, queues`readyPids, queues`waitPids, queues.Repr
      ensures Linked() && queues.Repr == old(queues.Repr) && State() == AcquireLoop(old(State()), l)
    {
      hide Linked, Unparked, Granted, BlockOn;
      Known();
      if OwnerOf(l).None? {
        PutObject(l, Lock(Some(current)));
        Grant(l);
      } else {
        BlockOnQueue(ObjectQ(l), InAcquire(l));
      }
    }

    method LockAcquire(l: int)
      requires Linked() && Unparked(State(), current)
      modifies this, queues`readyPids, queues`waitPids, queues.Repr
      ensures Linked() && queues.Repr == old(queues.Repr) && State() == Acquire(old(State()), l)
    {
      hide Linked, Unparked, AcquireLoop, Return;
      Known();
      if !ObjectAt(l).Lock? || current == idle || OwnerOf(l) == Some(current) {
        Answer(ERROR);
      } else {
        LockAcquireLoop(l);
      }
    }

    method ResumeLockAcquire(l: nat)
      requires Linked() && Unparked(State(), current)
      modifies this, queues`readyPids, queues`waitPids, queues.Repr
      ensures Linked() && queues.Repr == old(queues.Repr) && State() == ResumeAcquire(old(State()), l)
    {
      hide Linked, Unparked, AcquireLoop, Return, Granted;
      Known();
      if !ObjectAt(l).Lock? {
        Answer(ERROR);
      } else if OwnerOf(l) == Some(current) {
        Grant(l);
      } else {
        LockAcquireLoop(l);
      }
    }

    method SysRelease(l: int)
      requires Linked()
      modifies this, queues`readyPids, queues`waitPids, queues.Repr
      ensures Linked() && queues.Repr == old(queues.Repr) && State() == Release(old(State()), l)
    {
      hide Linked, Unparked, LockRelease, Return;
      Known();
      if OwnerOf(l) != Some(current) {
        Answer(ERROR);
      } else {
        ReleaseLock(l);
        Answer(SUCCESS);
      }
    }

    method SysCvarWait(c: int, l: int)
      requires Linked() && Unparked(State(), current)
      modifies this, queues`readyPids, queues`waitPids, queues.Repr
      ensures Linked() && queues.Repr == old(queues.Repr) && State() == CvarWait(old(State()), c, l)
    {
      hide Linked, Unparked, LockRelease, Return, BlockOn;
      Known();
      if !ObjectAt(c).Cvar? || OwnerOf(l) != Some(current) {
        Answer(ERROR);
      } else {
        ghost var s := State();
        ReleaseLock(l);
        StillUnparked(s, l, current);
        BlockOnQueue(ObjectQ(c), InCvarWait(c, l));
      }
    }

    /** Handing a lock over puts nobody into a wait queue. */
    lemma StillUnparked(s: Kernel, l: nat, p: Pid)
      requires Unparked(s, p) && Obj(s, l).Lock?
      ensures Unparked(LockRelease(s, l), p)
    {
      forall q ensures p !in Q(LockRelease(s, l), q) {
        assert forall r :: r in Q(LockRelease(s, l), q) ==> r in Q(s, q);
      }
    }

    method ResumeSysCvarWait(c: nat, l: int)
      requires Linked() && Unparked(State(), current)
      modifies this, queues`readyPids, queues`waitPids, queues.Repr
      ensures Linked() && queues.Repr == old(queues.Repr) && State() == ResumeCvarWait(old(State()), c, l)
    {
      hide Linked, Unparked, Acquire, Return;
      Known();
      if !ObjectAt(c).Cvar? {
        Answer(ERROR);
      } else {
        LockAcquire(l);
      }
    }

    method SysCvarSignal(c: int)
      requires Linked()
      modifies this, queues`readyPids, queues`waitPids, queues.Repr
      ensures Linked() && queues.Repr == old(queues.Repr) && State() == Signal(old(State()), c)
    {
      hide Linked, Unparked, WakeOne, Return;
      Known();
      if !ObjectAt(c).Cvar? {
        Answer(ERROR);
      } else {
        var _ := WakeFirst(ObjectQ(c));
        Answer(SUCCESS);
      }
    }

    method SysCvarBroadcast(c: int)
      requires Linked()
      modifies this, queues`readyPids, queues`waitPids, queues.Repr
      ensures Linked() && queues.Repr == old(queues.Repr) && State() == Broadcast(old(State()), c)
    {
      hide Linked, Unparked, WakeAll, Return;
      Known();
      if !ObjectAt(c).Cvar? {
        Answer(ERROR);
      } else {
        WakeEverybody(ObjectQ(c));
        Answer(SUCCESS);
      }
    }

    method PipeReadRound(id: nat, len: Positive)
      requires Linked() && Unparked(State(), current)
      requires Obj(State(), id).Pipe?
      modifies this, queues`readyPids, queues`waitPids, queues.Repr
      ensures Linked() && queues.Repr == old(queues.Repr) && State() == PipeReadLoop(old(State()), id, len)
    {
      hide Linked, Unparked, BlockOn;
      Known();
      var pipe := objects[id];
      if pipe.buf == [] {
        BlockOnQueue(ObjectQ(id), InPipeRead(id, len));
      } else {
        var count := |pipe.buf|;
        if count > len {
          count := len;
        }
        PutObject(id, pipe.(buf := pipe.buf[count..], taken := pipe.taken + pipe.buf[..count]));
        SetCurrent(Caller().(user := Caller().user.(got := pipe.buf[..count])));
        Answer(count);
        assert procs == old(procs)[current := Proc(State(), current)];
      }
    }

    method SysPipeRead(id: int, len: int, nullBuf: bool)
      requires Linked() && Unparked(State(), current)
      modifies this, queues`readyPids, queues`waitPids, queues.Repr
      ensures Linked() && queues.Repr == old(queues.Repr) && State() == PipeRead(old(State()), id, len, nullBuf)
    {
      hide Linked, Unparked, PipeReadLoop, Return;
      Known();
      if len < 0 || (nullBuf && len > 0) {
        Answer(ERROR);
      } else if len == 0 {
        Answer(0);
      } else if current == idle || !ObjectAt(id).Pipe? {
        Answer(ERROR);
      } else {
        PipeReadRound(id, len);
      }
    }

    method ResumeSysPipeRead(id: nat, len: Positive)
      requires Linked() && Unparked(State(), current)
      modifies this, queues`readyPids, queues`waitPids, queues.Repr
      ensures Linked() && queues.Repr == old(queues.Repr) && State() == ResumePipeRead(old(State()), id, len)
    {
      hide Linked, Unparked, PipeReadLoop, Return;
      Known();
      if !ObjectAt(id).Pipe? {
        Answer(ERROR);
      } else {
        PipeReadRound(id, len);
      }
    }

    /** The doubling loop of PipeEnsureCapacity. */
    method NewCapacity(cap: Positive, needed: nat) returns (newCap: Positive)
      ensures newCap == GrownCap(cap, needed)
    {
      newCap := cap;
      while newCap < needed
        invariant GrownCap(newCap, needed) == GrownCap(cap, needed)
        decreases needed - newCap
      {
        newCap := newCap * 2;
      }
    }

    method SysPipeWrite(id: int, mem: Option<seq<Byte>>, len: int, oom: bool)
      requires Linked()
      requires mem.Some? && len > 0 ==> len <= |mem.value|
      modifies this, queues`readyPids, queues`waitPids, queues.Repr
      ensures Linked() && queues.Repr == old(queues.Repr) && State() == PipeWrite(old(State()), id, mem, len, oom)
    {
      hide Linked, Unparked, WakeAll, Return, GrownCap;
      Known();
      if len < 0 || (mem.None? && len > 0) {
        Answer(ERROR);
        return;
      }
      if len == 0 {
        Answer(0);
        return;
      }
      if !ObjectAt(id).Pipe? {
        Answer(ERROR);
        return;
      }
      var pipe, data := objects[id], mem.value[..len];
      var needed, cap := |pipe.buf| + len, pipe.cap;
      if needed > cap {
        if oom {
          Answer(ERROR);
          return;
        }
        cap := NewCapacity(cap, needed);
      }
      PutObject(id, Pipe(pipe.buf + data, cap, pipe.written + data, pipe.taken));
      WakeEverybody(ObjectQ(id));
      Answer(len);
    }

    /** The scan of AllocObject. */
    method FindFree() returns (id: nat)
      ensures id == FirstFree(objects)
    {
      id := 0;
      while id < |objects| && objects[id] != Free
        invariant id <= |objects|
        invariant forall j :: 0 <= j < id ==> !objects[j].Free?
      {
        id := id + 1;
      }
    }

    method AllocObject(o: Object, nullPtr: bool, oom: bool)
      requires Linked() && forall i: nat :: i < |objects| && objects[i].Free? ==> Q(State(), ObjectQ(i)) == []
      modifies this, queues`readyPids, queues`waitPids, queues.Repr
      ensures Linked() && queues.Repr == old(queues.Repr) && State() == InitObject(old(State()), o, nullPtr, oom)
    {
      hide Linked, Unparked;
      Known();
      var id := FindFree();
      hide FirstFree;
      if nullPtr || id == |objects| || oom {
        Answer(ERROR);
      } else {
        FirstFreeBound(objects);
        PutObject(id, o);
        assert queues.waitPids[ObjectQ(id) := []] == queues.waitPids;
        SetCurrent(Caller().(user := Caller().user.(stored := id)));
        Answer(SUCCESS);
        assert procs == old(procs)[current := Proc(State(), current)];
      }
    }

    lemma FirstFreeBound(table: seq<Object>)
      ensures FirstFree(table) <= |table|
    {
    }

    method SysReclaim(id: int)
      requires Linked()
      modifies this, queues`readyPids, queues`waitPids, queues.Repr
      ensures Linked() && queues.Repr == old(queues.Repr) && State() == Reclaim(old(State()), id)
    {
      hide Linked, Unparked;
      Known();
      if ObjectAt(id).Free? || OwnerOf(id).Some? {
        Answer(ERROR);
        return;
      }
      var empty := NobodyIn(ObjectQ(id));
      if !empty {
        Answer(ERROR);
      } else {
        PutObject(id, Free);
        Answer(SUCCESS);
      }
    }

    // ---------- src/tty.c ----------

    /** The first queued write of a terminal becomes its current one. */
    method NextWriter(t: nat) returns (w: Option<Pid>)
      requires Linked() && t < |terms|
      modifies this`procs, this`terms, queues`waitPids, queues.Repr
      ensures Linked() && queues.Repr == old(queues.Repr) && (w.Some? ==> w.value in procs)
      ensures w.Some? <==> Q(old(State()), WriteQ(t)) != []
      ensures w.None? ==> State() == old(State())
      ensures w.Some? ==>
        && w.value == Q(old(State()), WriteQ(t))[0]
        && var s1 := SetQ(old(State()), WriteQ(t), Q(old(State()), WriteQ(t))[1..]);
           var s2 := SetTerm(s1, t, Term(s1, t).(writer := w));
           State() == SetProc(s2, w.value, Proc(s2, w.value).(blockQueue := None))
    {
      hide Linked;
      Known();
      w := Unpark(WriteQ(t));
      if w.Some? {
        PutTerm(t, terms[t].(writer := w));
        PutProc(w.value, ProcAt(w.value).(blockQueue := None));
      }
    }

    /** TtyTransmit of the next bytes of the current write. */
    method SendChunk(t: nat, writer: Pid)
      requires Linked() && t < |terms| && writer in procs && terms[t].writer == Some(writer)
      requires procs[writer].io.writeOffset < |procs[writer].io.writeBuf|
      modifies this`procs, this`terms
      ensures Linked() && State() == Transmit(old(State()), t)
    {
      hide Linked, MakeReady, StartWrite;
      var io := ProcAt(writer).io;
      var chunk := |io.writeBuf| - io.writeOffset;
      if chunk > TERMINAL_MAX_LINE {
        chunk := TERMINAL_MAX_LINE;
      }
      var end := io.writeOffset + chunk;
      PutTerm(t, terms[t].(busy := true, sent := terms[t].sent + [io.writeBuf[io.writeOffset..end]]));
      PutProc(writer, ProcAt(writer).(io := io.(writeOffset := end, writeChunks := io.writeChunks + 1)));
    }

    method TtyStartWrite(t: nat)
      requires Linked() && t < |terms| && (terms[t].writer.Some? ==> terms[t].writer.value in procs)
      modifies this`procs, this`terms, queues`readyPids, queues`waitPids, queues.Repr
      ensures Linked() && queues.Repr == old(queues.Repr) && State() == StartWrite(old(State()), t)
      decreases |Q(State(), WriteQ(t))| + (if Term(State(), t).writer.Some? then 1 else 0)
    {
      hide Linked, MakeReady;
      Known();
      if terms[t].busy {
        return;
      }
      var writer := terms[t].writer;
      if writer.None? {
        writer := NextWriter(t);
        if writer.None? {
          return;
        }
      }
      var io := ProcAt(writer.value).io;
      if io.writeOffset < |io.writeBuf| {
        SendChunk(t, writer.value);
        return;
      }
      PutTerm(t, terms[t].(writer := None));
      ghost var s := State();
      ProcessMakeReady(writer.value, ProcAt(writer.value));
      ReadyKeepsQueues(s, writer.value, Proc(s, writer.value));
      TtyStartWrite(t);
    }

    lemma ReadyKeepsQueues(s: Kernel, p: Pid, pcb: Pcb)
      ensures MakeReady(s, p, pcb).queues == s.queues && MakeReady(s, p, pcb).terms == s.terms
    {
    }

    method SysTtyWrite(t: int, mem: Option<seq<Byte>>, len: int, oom: bool)
      requires Linked() && Unparked(State(), current)
      requires mem.Some? && len > 0 ==> len <= |mem.value|
      modifies this, queues`readyPids, queues`waitPids, queues.Repr
      ensures Linked() && queues.Repr == old(queues.Repr) && State() == TtyWrite(old(State()), t, mem, len, oom)
    {
      hide Linked, Unparked, StartWrite, Schedule;
      Known();
      if !(0 <= t < |terms|) || len < 0 || (mem.None? && len > 0) {
        Answer(ERROR);
        return;
      }
      if len == 0 {
        Answer(0);
        return;
      }
      if current == idle || oom {
        Answer(ERROR);
        return;
      }
      var data := mem.value[..len];
      ghost var s0 := State();
      PutTerm(t, terms[t].(accepted := terms[t].accepted + data));
      SetCurrent(Caller().(ttyId := t, io := Caller().io.(writeBuf := data, writeOffset := 0, writeChunks := 0),
                               state := Blocked, cont := InTtyWrite).Returning(len));
      if terms[t].writer.None? && !terms[t].busy {
        PutTerm(t, terms[t].(writer := Some(current)));
        TtyStartWrite(t);
      } else {
        SetCurrent(Caller().(blockQueue := Some(WriteQ(t))));
        SameQueues(s0, State(), current);
        Park(WriteQ(t));
      }
      ProcessSchedule();
    }

    method ResumeSysTtyWrite()
      requires Linked()
      modifies this, queues`readyPids, queues`waitPids, queues.Repr
      ensures Linked() && queues.Repr == old(queues.Repr) && State() == ResumeTtyWrite(old(State()))
    {
      hide Linked, Unparked;
      Known();
      var len := |Caller().io.writeBuf|;
      SetCurrent(Caller().(io := Caller().io.(writeBuf := [], writeOffset := 0, writeChunks := 0)));
      Answer(len);
      assert procs == old(procs)[current := Proc(State(), current)];
    }

    method TrapTtyTransmit(t: int)
      requires Linked() && (0 <= t < |terms| && terms[t].writer.Some? ==> terms[t].writer.value in procs)
      modifies this, queues`readyPids, queues`waitPids, queues.Repr
      ensures Linked() && queues.Repr == old(queues.Repr) && State() == TrapTransmit(old(State()), t)
    {
      hide Linked, Unparked, StartWrite, MakeReady;
      Known();
      if !(0 <= t < |terms|) {
        return;
      }
      PutTerm(t, terms[t].(busy := false));
      var writer := terms[t].writer;
      if writer.Some? {
        var w := writer.value;
        var io := ProcAt(w).io;
        if io.writeOffset >= |io.writeBuf| {
          PutTerm(t, terms[t].(writer := None));
          ReadyKeepsQueues(State(), w, Proc(State(), w).Returning(|io.writeBuf|));
          ProcessMakeReady(w, ProcAt(w).Returning(|io.writeBuf|));
        }
      }
      TtyStartWrite(t);
    }

    method TtyReadRound(t: nat)
      requires Linked() && Unparked(State(), current)
      requires t < |terms|
      modifies this, queues`readyPids, queues`waitPids, queues.Repr
      ensures Linked() && queues.Repr == old(queues.Repr) && State() == TtyReadLoop(old(State()), t)
    {
      hide Linked, Unparked, BlockOn;
      Known();
      var (found, term) := NextLine(terms[t], Caller());
      if found.None? {
        BlockOnQueue(ReadQ(t), InTtyRead);
        return;
      }
      var line := found.value;
      var count := |line.data| - line.pos;
      if count > Caller().io.readLen {
        count := Caller().io.readLen;
      }
      var rest := Line(line.data, line.pos + count);
      PutTerm(t, term);
      if rest.pos < |rest.data| {
        PutTerm(t, term.(line := Some(rest)));
        assert terms == old(terms)[t := term.(line := Some(rest))];
      }
      SetCurrent(Caller().(io := Caller().io.(readLine := None),
                               user := Caller().user.(got := line.data[line.pos..rest.pos])));
      Answer(count);
      assert procs == old(procs)[current := Proc(State(), current)];
    }

    method SysTtyRead(t: int, len: int, nullBuf: bool)
      requires Linked() && Unparked(State(), current)
      modifies this, queues`readyPids, queues`waitPids, queues.Repr
      ensures Linked() && queues.Repr == old(queues.Repr) && State() == TtyRead(old(State()), t, len, nullBuf)
    {
      hide Linked, Unparked, TtyReadLoop, Return;
      Known();
      if !(0 <= t < |terms|) || len < 0 || (nullBuf && len > 0) {
        Answer(ERROR);
      } else if len == 0 {
        Answer(0);
      } else if current == idle {
        Answer(ERROR);
      } else {
        SameQueues(State(), SetCur(State(), Caller().(ttyId := t, io := Caller().io.(readLen := len))), current);
        SetCurrent(Caller().(ttyId := t, io := Caller().io.(readLen := len)));
        TtyReadRound(t);
      }
    }

    method TrapTtyReceive(t: int, data: seq<Byte>, ok: bool)
      requires Linked()
      modifies this, queues`readyPids, queues`waitPids, queues.Repr
      ensures Linked() && queues.Repr == old(queues.Repr) && State() == TrapReceive(old(State()), t, data, ok)
    {
      hide Linked, Unparked, MakeReady;
      Known();
      if !(0 <= t < |terms|) || !ok {
        return;
      }
      var reader := Unpark(ReadQ(t));
      if reader.Some? {
        var r := reader.value;
        var pcb := ProcAt(r);
        ProcessMakeReady(r, pcb.(blockQueue := None, io := pcb.io.(readLine := Some(Line(data, 0)))));
      } else {
        PutTerm(t, terms[t].(inputQueue := terms[t].inputQueue + [Line(data, 0)]));
      }
    }

    // ---------- src/syscalls.c and src/trap.c ----------

    /** The scan of SysWait over the list of children. */
    method FindZombie() returns (found: Option<Pid>)
      ensures found == FirstZombie(State(), Cur(State()).kin.children)
    {
      var cs := Caller().kin.children;
      var i := 0;
      while i < |cs|
        invariant 0 <= i <= |cs|
        invariant FirstZombie(State(), cs[i..]) == FirstZombie(State(), cs)
      {
        if ProcAt(cs[i]).state.Zombie? {
          return Some(cs[i]);
        }
        i := i + 1;
      }
      found := None;
    }

    lemma {:induction false} ZombieFound(s: Kernel, cs: seq<Pid>)
      ensures FirstZombie(s, cs).Some? ==> FirstZombie(s, cs).value in cs && Proc(s, FirstZombie(s, cs).value).state.Zombie?
    {
      if cs != [] {
        ZombieFound(s, cs[1..]);
      }
    }

    method SysWait(wantStatus: bool)
      requires Linked() && Reapable(State())
      modifies this, queues, queues.Repr
      ensures Linked() && queues.Repr == old(queues.Repr) && State() == Wait(old(State()), wantStatus)
    {
      hide Linked, Unparked;
      Known();
      if current == idle {
        Answer(ERROR);
        return;
      }
      var found := FindZombie();
      ZombieFound(State(), Caller().kin.children);
      hide FirstZombie, Destroy, Schedule, Destroyable;
      if found.Some? {
        var c := found.value;
        if wantStatus {
          ReapableStill(State(), Caller().(user := Caller().user.(stored := ProcAt(c).kin.exitStatus)));
          SetCurrent(Caller().(user := Caller().user.(stored := ProcAt(c).kin.exitStatus)));
        }
        ProcessDestroy(c);
        Answer(c);
      } else if Caller().kin.children == [] {
        Answer(ERROR);
      } else {
        SetCurrent(Caller().(waitingForChild := true, state := Blocked, cont := InWait(wantStatus)));
        ProcessSchedule();
      }
    }

    method ResumeSysWait(wantStatus: bool)
      requires Linked() && Reapable(State())
      modifies this, queues, queues.Repr
      ensures Linked() && queues.Repr == old(queues.Repr) && State() == ResumeWait(old(State()), wantStatus)
    {
      hide Linked, Unparked, Wait, Reapable;
      Known();
      ReapableStill(State(), Caller().(waitingForChild := false));
      SetCurrent(Caller().(waitingForChild := false));
      SysWait(wantStatus);
    }

    method NewProc(p: Pid, pcb: Pcb)
      requires Linked() && p !in procs
      modifies this`procs, queues`readyEntry, queues`blockEntry, queues`Repr
      ensures Linked() && State() == SetProc(old(State()), p, pcb) && fresh(queues.Repr - old(queues.Repr))
    {
      hide Queues.Valid;
      queues.Add(p);
      procs := procs[p := pcb];
    }

    method SysFork(child: Pid, made: bool, cloned: bool)
      requires Linked() && child !in procs && Unique(queues.readyPids)
      requires forall q :: Unique(Q(State(), q)) && child !in Q(State(), q)
      modifies this, queues, queues.Repr
      ensures Linked() && State() == Fork(old(State()), child, made, cloned)
      ensures fresh(queues.Repr - old(queues.Repr))
    {
      hide Linked, Unparked, Destroy, MakeReady, Destroyable;
      Known();
      if current == idle || !made {
        Answer(ERROR);
        return;
      }
      ChildDestroyable(State(), child);
      NewProc(child, BlankPcb.WithParent(Some(current)));
      SetCurrent(Caller().WithChildren(Caller().kin.children + [child]));
      if !cloned {
        ProcessDestroy(child);
        Answer(ERROR);
        return;
      }
      ProcessMakeReady(child, ProcAt(child));
      Answer(child);
    }

    method SysDelay(ticks: int)
      requires Linked()
      modifies this, queues`readyPids, queues`waitPids, queues.Repr
      ensures Linked() && queues.Repr == old(queues.Repr) && State() == Delay(old(State()), ticks)
    {
      hide Linked, Unparked, Schedule;
      Known();
      if ticks < 0 {
        Answer(ERROR);
      } else if ticks == 0 {
        Answer(SUCCESS);
      } else if current == idle {
        Answer(ERROR);
      } else {
        SetCurrent(Caller().(delayUntil := clock + ticks, state := Blocked, cont := InDelay).Returning(SUCCESS));
        ProcessSchedule();
      }
    }

    method TrapClock()
      requires Linked()
      modifies this, queues`readyPids, queues`waitPids, queues.Repr
      ensures Linked() && queues.Repr == old(queues.Repr) && State() == Clock(old(State()))
    {
      hide Linked, Schedule;
      Tick();
      Known();
      ProcessSchedule();
    }

    method Tick()
      requires Linked()
      modifies this`clock
      ensures Linked() && State() == old(State()).(clock := old(State()).clock + 1)
    {
      hide Queues.Valid;
      clock := clock + 1;
    }

    // ---------- one step ----------

    method ContinueCurrent()
      requires Valid() && Legal(State(), EvResume)
      modifies this, queues, queues.Repr
      ensures Linked() && State() == Resume(old(State()))
      ensures fresh(queues.Repr - old(queues.Repr))
    {
      hide Linked, Unparked, Reapable, Unique, Inv;
      hide ResumeAcquire, ResumeCvarWait, ResumePipeRead, ResumeTtyRead, ResumeTtyWrite, ResumeWait, Return;
      HandlersOf(State());
      match Caller().cont {
        case ToUser =>
        case InAcquire(l) => ResumeLockAcquire(l);
        case InCvarWait(c, l) => ResumeSysCvarWait(c, l);
        case InPipeRead(id, len) => ResumeSysPipeRead(id, len);
        case InTtyRead =>
          ReaderTerminal(State());
          ResumeSysTtyRead();
        case InTtyWrite => ResumeSysTtyWrite();
        case InDelay => Answer(SUCCESS);
        case InWait(wantStatus) => ResumeSysWait(wantStatus);
      }
    }

    method ResumeSysTtyRead()
      requires Linked() && Unparked(State(), current)
      requires Cur(State()).ttyId < |terms|
      modifies this, queues`readyPids, queues`waitPids, queues.Repr
      ensures Linked() && queues.Repr == old(queues.Repr) && State() == ResumeTtyRead(old(State()))
    {
      hide Linked, Unparked;
      Known();
      TtyReadRound(Caller().ttyId);
    }

    /** The calls on locks, condition variables and pipes. */
    method CallIpc(e: Event)
      requires Valid() && Legal(State(), e)
      requires e.EvPipeInit? || e.EvPipeRead? || e.EvPipeWrite? || e.EvLockInit? || e.EvAcquire? || e.EvRelease?
            || e.EvCvarInit? || e.EvSignal? || e.EvBroadcast? || e.EvCvarWait? || e.EvReclaim?
      modifies this, queues`readyPids, queues`waitPids, queues.Repr
      ensures Linked() && queues.Repr == old(queues.Repr) && State() == Step(old(State()), e)
    {
      hide Linked, Unparked, Inv, Q, Obj, InitObject, PipeRead, PipeWrite, Acquire, Release, Signal, Broadcast,
        CvarWait, Reclaim;
      SlotsFree(State());
      match e {
        case EvPipeInit(nullPtr, oom) => AllocObject(Pipe([], PIPE_BUFFER_LEN, [], []), nullPtr, oom);
        case EvPipeRead(id, len, nullBuf) => SysPipeRead(id, len, nullBuf);
        case EvPipeWrite(id, mem, len, oom) => SysPipeWrite(id, mem, len, oom);
        case EvLockInit(nullPtr) => AllocObject(Lock(None), nullPtr, false);
        case EvAcquire(id) => LockAcquire(id);
        case EvRelease(id) => SysRelease(id);
        case EvCvarInit(nullPtr) => AllocObject(Cvar, nullPtr, false);
        case EvSignal(id) => SysCvarSignal(id);
        case EvBroadcast(id) => SysCvarBroadcast(id);
        case EvCvarWait(c, l) => SysCvarWait(c, l);
        case EvReclaim(id) => SysReclaim(id);
      }
    }

    /** Every system call, resumption and trap keeps the object valid, and does what Step says. */
    method Dispatch(e: Event)
      requires Valid() && Legal(State(), e)
      modifies this, queues, queues.Repr
      ensures Valid() && State() == Step(old(State()), e) && fresh(queues.Repr - old(queues.Repr))
    {
      hide Linked, Unparked, Reapable, Unique, Inv, TtyRead, TtyWrite, TrapReceive, TrapTransmit, Delay, Exit, Wait,
        Fork, Clock, Resume,
        RunTheorems.Stepped, RunTheorems.Reschedules;
      hide InitObject, PipeRead, PipeWrite, Acquire, Release, Signal, Broadcast, CvarWait, Reclaim;
      RunTheorems.StepKept(State(), e);
      HandlersOf(State());
      match e {
        case EvResume => ContinueCurrent();
        case EvFork(c, made, cloned) => SysFork(c, made, cloned);
        case EvExit(status) => ProcessExitCurrent(status);
        case EvWait(want) => SysWait(want);
        case EvDelay(n) => SysDelay(n);
        case EvTtyRead(t, len, nullBuf) => SysTtyRead(t, len, nullBuf);
        case EvTtyWrite(t, mem, len, oom) => SysTtyWrite(t, mem, len, oom);
        case EvClock => TrapClock();
        case EvReceive(t, data, ok) => TrapTtyReceive(t, data, ok);
        case EvTransmit(t) =>
          assert t >= 0 && Term(State(), t).writer.Some? ==> Term(State(), t).writer.value in procs;
          TrapTtyTransmit(t);
        case _ => CallIpc(e);
      }
    }
  }
}
