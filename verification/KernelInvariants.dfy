/** What every step of the kernel keeps: the invariants the theorems are drawn from. */
module KernelInvariants {
  import opened Common
  import opened KernelState
  import KernelSteps

  // ---------- places ----------

  predicate IsWriter(s: Kernel, p: Pid) {
    Term(s, Proc(s, p).ttyId).writer == Some(p)
  }

  function Count(b: bool): nat {
    if b then 1 else 0
  }

  /** The number of things that hold p back: a wait queue, a delay, a child, a write in flight. */
  function Parks(s: Kernel, p: Pid): nat {
    Count(Proc(s, p).blockQueue.Some?) + Count(Proc(s, p).delayUntil != 0)
    + Count(Proc(s, p).waitingForChild) + Count(IsWriter(s, p))
  }

  /** block_queue names exactly the queue block_entry is linked in, once. */
  ghost predicate QueuesAgree(s: Kernel) {
    && (forall q :: Unique(Q(s, q)))
    && (forall q, p :: p in Q(s, q) ==> p in s.procs && s.procs[p].blockQueue == Some(q))
    && (forall p :: p in s.procs && s.procs[p].blockQueue.Some? ==> p in Q(s, s.procs[p].blockQueue.value))
  }

  ghost predicate ReadyAgrees(s: Kernel) {
    && Unique(s.ready)
    && (forall p :: p in s.ready ==> p in s.procs && p != s.idle && s.procs[p].state.Ready?)
    && s.current !in s.ready
  }

  ghost predicate WritersAgree(s: Kernel) {
    forall t: nat :: Term(s, t).writer.Some? ==>
      var w := Term(s, t).writer.value;
      w in s.procs && s.procs[w].ttyId == t
  }

  ghost predicate RunningAgrees(s: Kernel) {
    && s.current in s.procs
    && s.idle in s.procs && s.procs[s.idle].state.Running?
    && (forall p :: p in s.procs && s.procs[p].state.Running? ==> p == s.current || p == s.idle)
    && (forall p :: p in s.procs ==> p < MAX_PROCS)
  }

  ghost predicate ParksAgree(s: Kernel, p: Pid) {
    Parks(s, p) == Count(Proc(s, p).state.Blocked?)
  }

  /** The bookkeeping that holds even while the current process is on its way out. */
  ghost predicate PlaceBase(s: Kernel) {
    && QueuesAgree(s) && ReadyAgrees(s) && WritersAgree(s) && RunningAgrees(s)
    && (forall p :: p in s.procs ==> ParksAgree(s, p))
  }

  ghost predicate DelaysAhead(s: Kernel) {
    forall p :: p in s.procs && s.procs[p].delayUntil != 0 ==> s.procs[p].delayUntil > s.clock
  }

  ghost predicate PlaceInv(s: Kernel) {
    && PlaceBase(s) && DelaysAhead(s)
    && !Cur(s).state.Blocked? && !Cur(s).state.Zombie?
  }

  /** A process that is marked ready but is neither running nor in the ready queue: nothing can find it. */
  predicate Lost(s: Kernel, p: Pid) {
    p in s.procs && p != s.idle && s.procs[p].state.Ready? && p != s.current && p !in s.ready
  }

  /** s' comes from s without a call of ProcessSchedule, losing and finding nobody. */
  ghost predicate Forward(s: Kernel, s': Kernel) {
    && s'.current == s.current && s'.idle == s.idle && s'.init == s.init && s'.clock == s.clock
    && s.ready <= s'.ready
    && (forall p :: Lost(s, p) <==> Lost(s', p))
  }

  // ---------- scheduling leaves the rest alone ----------

  predicate SameButSchedule(a: Pcb, b: Pcb) {
    && b == a.(state := b.state, delayUntil := b.delayUntil)
    && (a.state.Zombie? <==> b.state.Zombie?) && (b.state.Blocked? ==> a.state.Blocked?)
    && (b.delayUntil == a.delayUntil || b.delayUntil == 0)
  }

  /** s' differs from s in ready queue, current process, and in what SameButSchedule leaves open. */
  ghost predicate ScheduleFrame(s: Kernel, s': Kernel) {
    && s' == s.(procs := s'.procs, ready := s'.ready, current := s'.current)
    && s'.procs.Keys == s.procs.Keys
    && (forall p :: p in s.procs ==> SameButSchedule(s.procs[p], s'.procs[p]))
  }

  // ---------- locks, condition variables, pipes ----------

  /** A process queued on object i is there for what the object is, and has cause to be. */
  predicate WaitsRight(s: Kernel, p: Pid, i: nat) {
    match Obj(s, i)
    case Free => false
    case Lock(o) => o.Some? && o != Some(p) && Proc(s, p).cont == InAcquire(i)
    case Cvar => Proc(s, p).cont.InCvarWait? && Proc(s, p).cont.cvar == i
    case Pipe(buf, _, _, _) => buf == [] && Proc(s, p).cont.InPipeRead? && Proc(s, p).cont.pipe == i
  }

  ghost predicate WaitersRight(s: Kernel) {
    forall p :: p in s.procs && s.procs[p].blockQueue.Some? && s.procs[p].blockQueue.value.ObjectQ? ==>
      WaitsRight(s, p, s.procs[p].blockQueue.value.id)
  }

  /** The owner of a lock has been told so, or is about to be when it resumes. */
  ghost predicate OwnersRight(s: Kernel) {
    forall l: nat :: Obj(s, l).Lock? && Obj(s, l).owner.Some? ==>
      var p := Obj(s, l).owner.value;
      && p in s.procs && p != s.idle && !s.procs[p].state.Zombie?
      && (l in s.procs[p].user.held <==> s.procs[p].cont != InAcquire(l))
  }

  ghost predicate HoldersRight(s: Kernel) {
    forall p, l :: p in s.procs && l in s.procs[p].user.held ==> Obj(s, l) == Lock(Some(p))
  }

  ghost predicate ContsRight(s: Kernel) {
    forall p :: p in s.procs ==>
      (p == s.idle ==> s.procs[p].cont.ToUser?) &&
      match s.procs[p].cont
      case InAcquire(l) => s.procs[p].blockQueue == Some(ObjectQ(l)) || (s.procs[p].blockQueue.None? && Obj(s, l) == Lock(Some(p)))
      case InCvarWait(_, l) => KernelSteps.LockOwner(s, l) != Some(p)
      case _ => true
  }

  ghost predicate LockInv(s: Kernel) {
    WaitersRight(s) && OwnersRight(s) && HoldersRight(s) && ContsRight(s)
  }

  ghost predicate PipeInv(s: Kernel) {
    forall i: nat :: Obj(s, i).Pipe? ==>
      var pipe := Obj(s, i);
      pipe.taken + pipe.buf == pipe.written && |pipe.buf| <= pipe.cap
  }

  // ---------- parents and children ----------

  predicate HasChild(s: Kernel, p: Pid, c: Pid) {
    p in s.procs && c in s.procs[p].kin.children
  }

  predicate HasParent(s: Kernel, c: Pid, p: Pid) {
    c in s.procs && s.procs[c].kin.parent == Some(p)
  }

  /** The parent pointers and the lists of children say the same. */
  ghost predicate KinAgree(s: Kernel) {
    && (forall p, c :: HasChild(s, p, c) <==> HasParent(s, c, p))
    && (forall p :: p in s.procs ==> Unique(s.procs[p].kin.children))
    && s.init in s.procs && s.procs[s.init].kin.parent.None?
  }

  ghost predicate ZombiesRight(s: Kernel) {
    forall p :: p in s.procs && s.procs[p].state.Zombie? ==> s.procs[p].kin.children == [] && s.procs[p].cont.ToUser?
  }

  /** A process blocked in Wait has a child, and none that it could reap. */
  ghost predicate ParentsRight(s: Kernel) {
    && (forall p :: p in s.procs && s.procs[p].waitingForChild ==> s.procs[p].kin.children != [])
    && (forall p, c :: HasChild(s, p, c) && s.procs[p].waitingForChild ==> !Proc(s, c).state.Zombie?)
  }

  ghost predicate FamilyInv(s: Kernel) {
    KinAgree(s) && ZombiesRight(s) && ParentsRight(s)
  }

  // ---------- terminals ----------

  predicate TtyCont(c: Cont) {
    c.InTtyRead? || c.InTtyWrite?
  }

  /** The bytes of the writes queued in ps, oldest first. */
  function Pending(s: Kernel, ps: seq<Pid>): seq<Byte> {
    if ps == [] then [] else Proc(s, ps[0]).io.writeBuf + Pending(s, ps[1..])
  }

  /** What the write in flight on terminal t has still to send. */
  function Rest(s: Kernel, t: nat): seq<Byte> {
    match Term(s, t).writer
    case None => []
    case Some(w) =>
      var io := Proc(s, w).io;
      if io.writeOffset <= |io.writeBuf| then io.writeBuf[io.writeOffset..] else []
  }

  ghost predicate WriterRight(s: Kernel, t: nat) {
    match Term(s, t).writer
    case None => !Term(s, t).busy && Q(s, WriteQ(t)) == []
    case Some(w) =>
      var pcb := Proc(s, w);
      && Term(s, t).busy && pcb.cont.InTtyWrite? && pcb.blockQueue.None?
      && 0 < pcb.io.writeOffset <= |pcb.io.writeBuf| && pcb.io.writeChunks > 0
      && pcb.io.writeOffset == KernelSteps.Min(pcb.io.writeChunks * TERMINAL_MAX_LINE, |pcb.io.writeBuf|)
      && (pcb.io.writeChunks - 1) * TERMINAL_MAX_LINE < |pcb.io.writeBuf|
  }

  predicate FreshWrite(pcb: Pcb, t: nat) {
    pcb.cont.InTtyWrite? && pcb.ttyId == t && pcb.io.writeBuf != [] && pcb.io.writeOffset == 0 && pcb.io.writeChunks == 0
  }

  /** Sent, in flight and queued bytes make up the accepted writes, in the order of the calls. */
  ghost predicate StreamRight(s: Kernel, t: nat) {
    && (forall p :: p in Q(s, WriteQ(t)) ==> FreshWrite(Proc(s, p), t))
    && (forall k :: 0 <= k < |Term(s, t).sent| ==> 1 <= |Term(s, t).sent[k]| <= TERMINAL_MAX_LINE)
    && Flatten(Term(s, t).sent) + Rest(s, t) + Pending(s, Q(s, WriteQ(t))) == Term(s, t).accepted
  }

  ghost predicate InputRight(s: Kernel, t: nat) {
    && (Q(s, ReadQ(t)) != [] ==> Term(s, t).inputQueue == [])
    && (forall p :: p in Q(s, ReadQ(t)) ==> Proc(s, p).cont.InTtyRead? && Proc(s, p).ttyId == t && Proc(s, p).io.readLine.None?)
  }

  /** A reader asked for some bytes, and one that has left its queue was handed a line. */
  predicate ConsoleRight(pcb: Pcb, terminals: nat) {
    && (TtyCont(pcb.cont) ==> pcb.ttyId < terminals)
    && (pcb.cont.InTtyRead? ==> pcb.io.readLen > 0)
    && (pcb.cont.InTtyRead? && pcb.blockQueue.None? ==> pcb.io.readLine.Some?)
  }

  ghost predicate TtyInv(s: Kernel) {
    && (forall t: nat :: t < |s.terms| ==> WriterRight(s, t) && StreamRight(s, t) && InputRight(s, t))
    && (forall t: nat :: t >= |s.terms| ==> Q(s, WriteQ(t)) == [] && Q(s, ReadQ(t)) == [])
    && (forall p :: p in s.procs ==> ConsoleRight(s.procs[p], |s.terms|))
  }

  /** The invariant of the whole machine. */
  ghost predicate Inv(s: Kernel) {
    PlaceInv(s) && LockInv(s) && PipeInv(s) && FamilyInv(s) && TtyInv(s)
  }

  // ---------- what system calls on IPC objects leave alone ----------

  predicate SameTtyPart(a: Pcb, b: Pcb) {
    TtyCont(a.cont) || TtyCont(b.cont) ==>
      b.io == a.io && b.ttyId == a.ttyId && b.cont == a.cont && b.blockQueue == a.blockQueue
  }

  predicate SameFamilyPart(a: Pcb, b: Pcb) {
    && b.kin == a.kin && b.waitingForChild == a.waitingForChild
    && (b.state.Zombie? <==> a.state.Zombie?) && (a.state.Zombie? ==> b.cont == a.cont)
  }

  ghost predicate SameFamily(s: Kernel, s': Kernel) {
    && s'.procs.Keys == s.procs.Keys && s'.init == s.init
    && (forall p :: p in s.procs ==> SameFamilyPart(s.procs[p], s'.procs[p]))
  }

  ghost predicate SameTty(s: Kernel, s': Kernel) {
    && s'.terms == s.terms
    && (forall t :: Q(s', ReadQ(t)) == Q(s, ReadQ(t)) && Q(s', WriteQ(t)) == Q(s, WriteQ(t)))
    && (forall p :: SameTtyPart(Proc(s, p), Proc(s', p)))
  }

  // ---------- one step, seen from the ready queue ----------

  /**
   * s' comes after s in one step. With sched, ProcessSchedule was called once: it took the head of the
   * ready queue. Nobody got lost and nobody lost was found.
   */
  ghost predicate Went(s: Kernel, s': Kernel, sched: bool) {
    && PlaceInv(s') && s'.idle == s.idle && s'.init == s.init
    && (if sched then s.ready != [] ==> s'.current == s.ready[0] && s.ready[1..] <= s'.ready
        else s'.current == s.current && s.ready <= s'.ready)
    && (forall p :: Lost(s, p) <==> Lost(s', p))
  }
}
