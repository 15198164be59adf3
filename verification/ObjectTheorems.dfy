/** Pipes, condition variables and acquired locks over whole runs, told by what the callers see. */
module ObjectTheorems {
  import opened Common
  import opened KernelState
  import opened KernelSteps
  import opened KernelInvariants
  import OperationPlaces
  import opened IpcProofs
  import opened LifeProofs
  import opened StepFrames
  import opened StepTheorems
  import opened RunTheorems
  import SafetyTheorems
  import opened FairnessTheorems

  // ---------- pipes ----------

  /** The result a step leaves in the registers of the process that took it, if that process is back in user code. */
  function Answer(s: Kernel, s': Kernel): Option<int> {
    if Proc(s', s.current).cont.ToUser? then Some(Proc(s', s.current).user.result) else None
  }

  /** The bytes a step puts into pipe id: those of a write that returned its length. */
  function PutBy(s: Kernel, e: Event, id: nat): seq<Byte>
    requires Legal(s, e)
  {
    if e.EvPipeWrite? && e.id == id && e.mem.Some? && e.len > 0 && Answer(s, Step(s, e)) == Some(e.len)
    then e.mem.value[..e.len] else []
  }

  predicate ReadsFrom(s: Kernel, e: Event, id: nat) {
    (e.EvPipeRead? && e.id == id) || (e.EvResume? && Cur(s).cont.InPipeRead? && Cur(s).cont.pipe == id)
  }

  /** The bytes a step takes out of pipe id: those a read that returned a positive count left in its buffer. */
  function GotBy(s: Kernel, e: Event, id: nat): seq<Byte>
    requires Legal(s, e)
  {
    var r := Answer(s, Step(s, e));
    if ReadsFrom(s, e, id) && r.Some? && r.value > 0 then Proc(Step(s, e), s.current).user.got else []
  }

  /** One step moves bytes through pipe id without changing their order, unless it reclaims the pipe. */
  ghost predicate PipeMoves(s: Kernel, e: Event, id: nat, s': Kernel)
    requires Legal(s, e) && Obj(s, id).Pipe?
  {
    if Obj(s', id).Pipe? then GotBy(s, e, id) + Obj(s', id).buf == Obj(s, id).buf + PutBy(s, e, id)
    else e == EvReclaim(id) && Obj(s', id).Free? && Q(s, ObjectQ(id)) == []
  }

  lemma {:induction false} WakeAllObjects(s: Kernel, q: QueueId)
    ensures WakeAll(s, q).objects == s.objects
    decreases |Q(s, q)|
  {
    if Q(s, q) != [] {
      assert WakeOne(s, q).objects == s.objects;
      WakeAllObjects(WakeOne(s, q), q);
    }
  }

  lemma NothingMoves(s: Kernel, e: Event, id: nat, s': Kernel)
    requires Legal(s, e) && s' == Step(s, e) && Obj(s, id).Pipe? && ObjectKept(s, s', id)
    requires GotBy(s, e, id) == [] && PutBy(s, e, id) == []
    ensures PipeMoves(s, e, id, s')
  {
    hide GotBy, PutBy, Step;
    assert [] + Obj(s, id).buf == Obj(s, id).buf + [];
  }

  lemma OthersDoNot(s: Kernel, e: Event, id: nat)
    requires Legal(s, e)
    ensures !e.EvPipeWrite? || e.id != id ==> PutBy(s, e, id) == []
    ensures !ReadsFrom(s, e, id) ==> GotBy(s, e, id) == []
  {
    hide Step;
  }

  lemma PipeLoopAnswers(s: Kernel, id: nat, len: Positive)
    requires Inv(s) && Obj(s, id).Pipe? && s.current != s.idle
    ensures var s' := PipeReadLoop(s, id, len);
      if Obj(s, id).buf == [] then Answer(s, s') == None && ObjectPipe(s, s', id)
      else var n := Min(|Obj(s, id).buf|, len);
        Answer(s, s') == Some(n) && Obj(s', id).Pipe? && Obj(s', id).buf == Obj(s, id).buf[n..]
        && Proc(s', s.current).user.got == Obj(s, id).buf[..n]
  {
    if Obj(s, id).buf == [] {
      hide Inv, PlaceInv, BlockOn, Before, Whole;
      InvParts(s);
      OperationPlaces.BlockPlaces(s, ObjectQ(id), InPipeRead(id, len));
      BlockJoins(s, id, InPipeRead(id, len));
    } else {
      hide Inv;
    }
  }

  predicate ObjectPipe(s: Kernel, s': Kernel, id: nat) {
    Obj(s', id) == Obj(s, id)
  }

  lemma ReadMoves(s: Kernel, e: Event, id: nat, len: Positive)
    requires Inv(s) && Legal(s, e) && Obj(s, id).Pipe? && s.current != s.idle && ReadsFrom(s, e, id)
    requires Step(s, e) == PipeReadLoop(s, id, len)
    ensures PipeMoves(s, e, id, Step(s, e)) && |GotBy(s, e, id)| <= len
    ensures Answer(s, Step(s, e)).Some? ==> Answer(s, Step(s, e)) == Some(|GotBy(s, e, id)|) && GotBy(s, e, id) != []
  {
    hide Inv, Step, PipeReadLoop, Legal, PutBy, ReadsFrom, Obj, Answer;
    PutNothing(s, e, id);
    PipeLoopAnswers(s, id, len);
    var buf := Obj(s, id).buf;
    if buf == [] {
      assert [] + buf == buf + [];
    } else {
      var n := Min(|buf|, len);
      assert buf[..n] + buf[n..] == buf + [];
    }
  }

  lemma PutNothing(s: Kernel, e: Event, id: nat)
    requires Legal(s, e) && ReadsFrom(s, e, id)
    ensures PutBy(s, e, id) == []
  {
    hide Step;
  }

  lemma WriteMoves(s: Kernel, e: Event, id: nat)
    requires Legal(s, e) && e.EvPipeWrite? && e.id == id && Obj(s, id).Pipe?
    ensures PipeMoves(s, e, id, Step(s, e))
  {
    hide WakeAll, Appended, Touches;
    var s', pipe := Step(s, e), Obj(s, id);
    OthersDoNot(s, e, id);
    assert pipe.buf + [] == pipe.buf;
    if e.len > 0 && e.mem.Some? {
      var data := e.mem.value[..e.len];
      AppendedIs(pipe, data);
      WakeAllObjects(SetObj(s, id, Appended(pipe, data)), ObjectQ(id));
      WakeAllTouches(SetObj(s, id, Appended(pipe, data)), ObjectQ(id), s.current);
      assert [] + (pipe.buf + data) == pipe.buf + data;
      if Answer(s, s') != Some(e.len) {
        assert Obj(s', id) == pipe;
      } else {
        assert Obj(s', id) == Appended(pipe, data);
      }
    }
  }

  lemma AppendedIs(pipe: Object, data: seq<Byte>)
    requires pipe.Pipe?
    ensures Appended(pipe, data).Pipe? && Appended(pipe, data).buf == pipe.buf + data
  {
  }

  lemma IdleStays(s: Kernel, e: Event, id: nat)
    requires Legal(s, e) && e.EvPipeRead? && e.id == id && Obj(s, id).Pipe?
    requires e.len <= 0 || s.current == s.idle || (e.nullBuf && e.len > 0)
    ensures PipeMoves(s, e, id, Step(s, e))
  {
    assert [] + Obj(s, id).buf == Obj(s, id).buf + [];
  }

  lemma OtherCallsFail(s: Kernel, e: Event, id: nat)
    requires Legal(s, e) && Obj(s, id).Pipe? && id in Named(s, e)
    requires !e.EvPipeRead? && !e.EvPipeWrite? && !e.EvReclaim? && !e.EvResume?
    ensures Step(s, e) == Return(s, ERROR)
  {
    hide LockRelease, WakeAll, WakeOne, AcquireLoop, Exit, BlockOn, Finish;
  }

  lemma ReclaimPipe(s: Kernel, id: nat)
    requires Legal(s, EvReclaim(id)) && Obj(s, id).Pipe?
    ensures PipeMoves(s, EvReclaim(id), id, Step(s, EvReclaim(id)))
  {
    assert [] + Obj(s, id).buf == Obj(s, id).buf + [];
  }

  lemma ResumePipe(s: Kernel, id: nat)
    requires Inv(s) && Legal(s, EvResume) && Obj(s, id).Pipe? && id in Named(s, EvResume)
    ensures PipeMoves(s, EvResume, id, Step(s, EvResume))
  {
    hide Inv, Before, Whole, PlaceInv, LockInv, PipeInv, FamilyInv, TtyInv, PipeMoves, PipeReadLoop, Finish, PutBy,
      GotBy, Granted, AcquireLoop, Wait, TtyReadLoop;
    InvParts(s);
    ResumingIsNotIdle(s);
    OthersDoNot(s, EvResume, id);
    match Cur(s).cont {
      case InAcquire(l) =>
        ResumeAcquireGrants(s, l);
        assert false;
      case InCvarWait(c, l) =>
        assert Step(s, EvResume) == Return(s, ERROR);
        FinishAt(s, Cur(s), ERROR, id);
        NothingMoves(s, EvResume, id, Step(s, EvResume));
      case InPipeRead(_, len) =>
        ReadMoves(s, EvResume, id, len);
    }
  }

  lemma PipeStep(s: Kernel, e: Event, id: nat)
    requires Inv(s) && Legal(s, e) && Obj(s, id).Pipe?
    ensures PipeMoves(s, e, id, Step(s, e))
  {
    hide Inv, Step, Isolated, PipeMoves, Finish, PutBy, GotBy, OwnedLocks;
    OthersDoNot(s, e, id);
    if id !in Named(s, e) {
      UnnamedObject(s, e, id);
      NothingMoves(s, e, id, Step(s, e));
    } else if e.EvResume? {
      ResumePipe(s, id);
    } else if e.EvPipeWrite? {
      WriteMoves(s, e, id);
    } else if e.EvPipeRead? {
      if e.len <= 0 || s.current == s.idle || (e.nullBuf && e.len > 0) {
        IdleStays(s, e, id);
      } else {
        ReadLoopStep(s, e);
        ReadMoves(s, e, id, e.len);
      }
    } else if e.EvReclaim? {
      ReclaimPipe(s, id);
    } else {
      OtherCallsFail(s, e, id);
      FinishAt(s, Cur(s), ERROR, id);
      NothingMoves(s, e, id, Step(s, e));
    }
  }

  lemma ReadLoopStep(s: Kernel, e: Event)
    requires Legal(s, e) && e.EvPipeRead? && Obj(s, e.id).Pipe?
    requires !(e.len <= 0 || s.current == s.idle || (e.nullBuf && e.len > 0))
    ensures Step(s, e) == PipeReadLoop(s, e.id, e.len)
  {
    hide PipeReadLoop;
  }

  lemma UnnamedObject(s: Kernel, e: Event, id: nat)
    requires Inv(s) && Legal(s, e) && id !in Named(s, e)
    ensures ObjectKept(s, Step(s, e), id)
    ensures !ReadsFrom(s, e, id) && (!e.EvPipeWrite? || e.id != id)
  {
    hide Inv, Step, Legal;
    StepIsolated(s, e);
  }

  /** The pipe exists from the first to the last state of the run. */
  ghost predicate PipeLives(s: Kernel, es: seq<Event>, id: nat)
    requires LegalRun(s, es)
    decreases |es|
  {
    Obj(s, id).Pipe? && (es == [] || PipeLives(Step(s, es[0]), es[1..], id))
  }

  function PutIn(s: Kernel, es: seq<Event>, id: nat): seq<Byte>
    requires LegalRun(s, es)
    decreases |es|
  {
    if es == [] then [] else PutBy(s, es[0], id) + PutIn(Step(s, es[0]), es[1..], id)
  }

  function GotFrom(s: Kernel, es: seq<Event>, id: nat): seq<Byte>
    requires LegalRun(s, es)
    decreases |es|
  {
    if es == [] then [] else GotBy(s, es[0], id) + GotFrom(Step(s, es[0]), es[1..], id)
  }

  /**
   * A pipe is one stream: over its lifetime and any interleaving of readers and writers, the bytes the reads
   * returned and then the bytes still in it are the bytes it held at first and then those the writes put in.
   */
  lemma {:induction false} PipeIsStream(s: Kernel, es: seq<Event>, id: nat)
    requires Inv(s) && LegalRun(s, es) && PipeLives(s, es, id)
    ensures Obj(Run(s, es), id).Pipe?
    ensures GotFrom(s, es, id) + Obj(Run(s, es), id).buf == Obj(s, id).buf + PutIn(s, es, id)
    decreases |es|
  {
    hide Inv, Step, Legal, PutBy, GotBy, Stepped;
    if es == [] {
      assert [] + Obj(s, id).buf == Obj(s, id).buf + [];
    } else {
      var s1 := Step(s, es[0]);
      PipeStep(s, es[0], id);
      StepKept(s, es[0]);
      PipeIsStream(s1, es[1..], id);
      StreamThen(GotBy(s, es[0], id), Obj(s1, id).buf, Obj(s, id).buf, PutBy(s, es[0], id),
                 GotFrom(s1, es[1..], id), Obj(Run(s, es), id).buf, PutIn(s1, es[1..], id));
    }
  }

  lemma StreamThen<T>(got: seq<T>, mid: seq<T>, start: seq<T>, put: seq<T>, got': seq<T>, end: seq<T>, put': seq<T>)
    requires got + mid == start + put && got' + end == mid + put'
    ensures (got + got') + end == start + (put + put')
  {
    assert (got + got') + end == got + (got' + end);
    assert got + (mid + put') == (got + mid) + put';
    assert (start + put) + put' == start + (put + put');
  }

  // ---------- condition variables ----------

  /** How many waiters of condition variable c a step wakes, were they there. */
  function WokenBy(s: Kernel, e: Event, c: nat): nat {
    if e == EvSignal(c) then 1 else if e == EvBroadcast(c) then |Q(s, ObjectQ(c))| else 0
  }

  /** What one step does to the waiters of condition variable c. */
  ghost predicate CvarMoves(s: Kernel, e: Event, c: nat, s': Kernel) {
    var q, q' := Q(s, ObjectQ(c)), Q(s', ObjectQ(c));
    && (e == EvSignal(c) ==> q' == (if q == [] then [] else q[1..]) && (q != [] ==> Awakened(s', q[0])))
    && (e == EvBroadcast(c) ==> q' == [] && forall p :: p in q ==> Awakened(s', p))
    && (e != EvSignal(c) && e != EvBroadcast(c) ==> q' == q || q' == q + [s.current])
    && (Obj(s', c) == Obj(s, c) || (q == [] && q' == [] && e == EvReclaim(c)))
  }

  predicate Awakened(s: Kernel, p: Pid) {
    p in s.ready && Proc(s, p).blockQueue.None?
  }

  lemma QueuedIsBlocked(s: Kernel, q: QueueId)
    requires PlaceInv(s)
    ensures forall p :: p in Q(s, q) ==> p in s.procs && p != s.idle && p != s.current && s.procs[p].state.Blocked? && p !in s.ready
  {
    hide ParksAgree, WritersAgree;
    forall p | p in Q(s, q) ensures s.procs[p].state.Blocked? {
      assert ParksAgree(s, p);
      SafetyTheorems.ParksMean(s, p);
    }
    assert ParksAgree(s, s.current);
    SafetyTheorems.ParksMean(s, s.current);
  }

  lemma SignalMoves(s: Kernel, c: nat)
    requires PlaceInv(s) && Obj(s, c).Cvar?
    ensures CvarMoves(s, EvSignal(c), c, Signal(s, c))
  {
    QueuedIsBlocked(s, ObjectQ(c));
    hide PlaceInv;
  }

  lemma BroadcastMoves(s: Kernel, c: nat)
    requires PlaceInv(s) && Obj(s, c).Cvar?
    ensures CvarMoves(s, EvBroadcast(c), c, Broadcast(s, c))
  {
    hide WakeAll, PlaceInv, PlaceBase;
    QueuedIsBlocked(s, ObjectQ(c));
    PlaceBaseOf(s);
    CurrentAwake(s);
    OperationPlaces.WakeAllPlaces(s, ObjectQ(c));
    WakeAllObjects(s, ObjectQ(c));
    NoneLeft(s, ObjectQ(c));
    var s' := Broadcast(s, c);
    forall p | p in Q(s, ObjectQ(c)) ensures Awakened(s', p) {
      assert p in WakeAll(s, ObjectQ(c)).ready;
    }
  }

  lemma CvarFails(s: Kernel, e: Event, c: nat)
    requires Legal(s, e) && Obj(s, c).Cvar? && c in Named(s, e) && !e.EvResume?
    requires !e.EvSignal? && !e.EvBroadcast? && !e.EvCvarWait? && !e.EvReclaim?
    ensures exists r :: Step(s, e) == Return(s, r)
  {
    hide LockRelease, WakeAll, WakeOne, AcquireLoop, Exit, BlockOn, Finish, PipeReadLoop;
    assert Step(s, e) == Return(s, ERROR) || Step(s, e) == Return(s, 0);
  }

  lemma CvarStays(s: Kernel, e: Event, c: nat, s': Kernel)
    requires ObjectKept(s, s', c) && e != EvSignal(c) && e != EvBroadcast(c)
    ensures CvarMoves(s, e, c, s')
  {
  }

  lemma CvarWaitMoves(s: Kernel, e: Event, c: nat)
    requires Legal(s, e) && e.EvCvarWait? && Obj(s, c).Cvar? && c in Named(s, e)
    ensures CvarMoves(s, e, c, Step(s, e))
  {
    hide CvarWait, Finish;
    if Obj(s, e.cvar).Cvar? && LockOwner(s, e.mutex) == Some(s.current) {
      CvarWaitPasses(s, e.cvar, e.mutex);
      CvarUnchanged(s, e.cvar, e.mutex);
    } else {
      CvarWaitFails(s, e.cvar, e.mutex);
      FinishAt(s, Cur(s), ERROR, c);
      CvarStays(s, e, c, Step(s, e));
    }
  }

  lemma CvarUnchanged(s: Kernel, c: nat, l: nat)
    requires Obj(s, c).Cvar? && LockOwner(s, l) == Some(s.current)
    ensures Obj(CvarWait(s, c, l), c) == Obj(s, c)
  {
    hide CvarWait;
    CvarWaitPasses(s, c, l);
  }

  lemma ResumeLeavesCvar(s: Kernel, c: nat)
    requires Inv(s) && Legal(s, EvResume) && Obj(s, c).Cvar? && c in Named(s, EvResume)
    ensures ObjectKept(s, Step(s, EvResume), c)
  {
    hide Inv, Before, Whole, PlaceInv, LockInv, PipeInv, FamilyInv, TtyInv, PipeReadLoop, Finish, ObjectKept,
      Granted, AcquireLoop, Wait, TtyReadLoop, Isolated;
    InvParts(s);
    match Cur(s).cont {
      case InAcquire(l) =>
        ResumeAcquireGrants(s, l);
        assert false;
      case InCvarWait(_, l) =>
        FinishAt(s, Cur(s), ERROR, c);
      case InPipeRead(_, len) =>
        FinishAt(s, Cur(s), ERROR, c);
    }
  }

  /** A signal wakes the oldest waiter, a broadcast all of them, and nothing else takes a waiter away. */
  lemma CvarStep(s: Kernel, e: Event, c: nat)
    requires Inv(s) && Legal(s, e) && Obj(s, c).Cvar?
    ensures CvarMoves(s, e, c, Step(s, e))
  {
    hide Inv, Step, Isolated, CvarMoves, Finish, OwnedLocks, Before, Whole, PlaceInv, ObjectKept, Legal;
    InvParts(s);
    if c !in Named(s, e) {
      UnnamedObject(s, e, c);
      CvarStays(s, e, c, Step(s, e));
    } else if e.EvResume? {
      ResumeLeavesCvar(s, c);
      CvarStays(s, e, c, Step(s, e));
    } else if e.EvSignal? {
      SignalMoves(s, c);
      CvarStepIs(s, e);
    } else if e.EvBroadcast? {
      BroadcastMoves(s, c);
      CvarStepIs(s, e);
    } else if e.EvCvarWait? {
      CvarWaitMoves(s, e, c);
    } else if e.EvReclaim? {
      ReclaimLeavesCvar(s, e, c);
    } else {
      CvarFails(s, e, c);
      var r :| Step(s, e) == Return(s, r);
      FinishAt(s, Cur(s), r, c);
      CvarStays(s, e, c, Step(s, e));
    }
  }

  lemma CvarStepIs(s: Kernel, e: Event)
    requires Legal(s, e)
    ensures e.EvSignal? ==> Step(s, e) == Signal(s, e.id)
    ensures e.EvBroadcast? ==> Step(s, e) == Broadcast(s, e.id)
  {
    hide Signal, Broadcast;
  }

  lemma ReclaimLeavesCvar(s: Kernel, e: Event, c: nat)
    requires Legal(s, e) && e == EvReclaim(c) && Obj(s, c).Cvar?
    ensures CvarMoves(s, e, c, Step(s, e))
  {
  }

  /** The wake-ups a run makes on condition variable c. */
  function Wakes(s: Kernel, es: seq<Event>, c: nat): nat
    requires LegalRun(s, es)
    decreases |es|
  {
    if es == [] then 0 else WokenBy(s, es[0], c) + Wakes(Step(s, es[0]), es[1..], c)
  }

  lemma CvarShifts(s: Kernel, e: Event, c: nat, s': Kernel)
    requires CvarMoves(s, e, c, s')
    ensures Shifted(Q(s, ObjectQ(c)), WokenBy(s, e, c), Q(s', ObjectQ(c)))
    ensures !Obj(s', c).Cvar? && Obj(s, c).Cvar? ==> Q(s', ObjectQ(c)) == []
  {
    hide Awakened;
  }

  /** Waiters leave a condition variable in the order they came, one for every wake-up: no later waiter overtakes. */
  lemma {:induction false} CvarIsFair(s: Kernel, es: seq<Event>, c: nat)
    requires Inv(s) && LegalRun(s, es) && Obj(s, c).Cvar?
    ensures Shifted(Q(s, ObjectQ(c)), Wakes(s, es, c), Q(Run(s, es), ObjectQ(c)))
    decreases |es|
  {
    hide Inv, Step, Legal, CvarMoves, Stepped, WokenBy;
    if es != [] {
      var s1 := Step(s, es[0]);
      CvarStep(s, es[0], c);
      CvarShifts(s, es[0], c, s1);
      StepKept(s, es[0]);
      if Obj(s1, c).Cvar? {
        CvarIsFair(s1, es[1..], c);
      }
      ShiftedTrans(Q(s, ObjectQ(c)), WokenBy(s, es[0], c), Q(s1, ObjectQ(c)), Wakes(s1, es[1..], c), Q(Run(s, es), ObjectQ(c)));
    }
  }

  /**
   * No signal falls between giving the lock up and waiting: in the very step that passes the lock on, the caller
   * is the last waiter of the condition variable.
   */
  lemma CvarWaitIsAtomic(s: Kernel, c: nat, l: nat)
    requires Reached(s) && Legal(s, EvCvarWait(c, l)) && Obj(s, c).Cvar? && LockOwner(s, l) == Some(s.current)
    ensures var s' := Step(s, EvCvarWait(c, l));
      && PassedOn(s, s', l) && Q(s', ObjectQ(c)) == Q(s, ObjectQ(c)) + [s.current]
      && s.current in s'.procs && s'.procs[s.current].blockQueue == Some(ObjectQ(c)) && s'.procs[s.current].state.Blocked?
  {
    hide Reached, Inv, CvarWait, PassedOn;
    ReachedInv(s);
    CvarWaitPasses(s, c, l);
    StepKept(s, EvCvarWait(c, l));
    var s' := Step(s, EvCvarWait(c, l));
    QueuedParts(s', s.current, ObjectQ(c));
  }

  lemma QueuedParts(s: Kernel, p: Pid, q: QueueId)
    requires Inv(s) && p in Q(s, q)
    ensures p in s.procs && s.procs[p].blockQueue == Some(q) && s.procs[p].state.Blocked?
  {
    hide LockInv, PipeInv, FamilyInv, TtyInv, PlaceInv;
    QueuedIsBlocked(s, q);
    PlaceQueued(s, p, q);
  }

  lemma PlaceQueued(s: Kernel, p: Pid, q: QueueId)
    requires PlaceInv(s) && p in Q(s, q)
    ensures p in s.procs && s.procs[p].blockQueue == Some(q)
  {
    hide ParksAgree;
  }

  // ---------- a successful Acquire or CvarWait owns the lock ----------

  /** The lock a step may give to the process that takes it. */
  function Seeks(s: Kernel, e: Event): Option<int> {
    if e.EvAcquire? then Some(e.id)
    else if e.EvResume? && Cur(s).cont.InAcquire? then Some(Cur(s).cont.lock)
    else if e.EvResume? && Cur(s).cont.InCvarWait? then Some(Cur(s).cont.mutex)
    else None
  }

  /** A step that answers an Acquire or CvarWait answers SUCCESS exactly when it makes the caller hold the lock. */
  ghost predicate AnswersRight(s: Kernel, l: int, s': Kernel) {
    match Answer(s, s')
    case None => true
    case Some(r) =>
      var held, held' := Cur(s).user.held, Proc(s', s.current).user.held;
      if r == SUCCESS then 0 <= l && held' == held + {l as nat} && l !in held && Obj(s', l) == Lock(Some(s.current))
      else r == ERROR && held' == held && s'.objects == s.objects
  }

  lemma GrantAnswers(s: Kernel, l: nat)
    requires l !in Cur(s).user.held && Obj(s, l).Lock?
    ensures AnswersRight(s, l, Granted(SetObj(s, l, Lock(Some(s.current))), l))
    ensures Obj(s, l) == Lock(Some(s.current)) ==> AnswersRight(s, l, Granted(s, l))
  {
  }

  lemma AcquireAnswers(s: Kernel, l: int)
    requires Inv(s)
    ensures AnswersRight(s, l, Acquire(s, l))
  {
    hide Inv, Granted, BlockOn, Before, Whole, AnswersRight, PlaceInv;
    InvParts(s);
    assert AnswersRight(s, l, Return(s, ERROR)) by { ErrorAnswers(s, l); }
    if Obj(s, l).Lock? && LockOwner(s, l).None? {
      NotYetHeld(s, l);
      GrantAnswers(s, l);
    } else if Obj(s, l).Lock? && s.current != s.idle {
      OperationPlaces.BlockPlaces(s, ObjectQ(l), InAcquire(l));
      BlockedAnswers(s, l, BlockOn(s, ObjectQ(l), InAcquire(l)));
    }
  }

  lemma ErrorAnswers(s: Kernel, l: int)
    ensures AnswersRight(s, l, Return(s, ERROR))
  {
  }

  lemma BlockedAnswers(s: Kernel, l: int, s': Kernel)
    requires Answer(s, s').None?
    ensures AnswersRight(s, l, s')
  {
    hide Answer;
  }

  lemma NotYetHeld(s: Kernel, l: nat)
    requires Inv(s) && Obj(s, l).Lock? && (LockOwner(s, l).None? || Cur(s).cont == InAcquire(l))
    ensures l !in Cur(s).user.held && Obj(s, l).Lock?
  {
    hide PlaceInv, PipeInv, FamilyInv, TtyInv, WaitersRight;
  }

  /** CvarWait and Acquire never return SUCCESS without the lock, and never fail with it newly in hand. */
  lemma SuccessMeansOwner(s: Kernel, e: Event)
    requires Reached(s) && Legal(s, e) && Seeks(s, e).Some?
    ensures AnswersRight(s, Seeks(s, e).value, Step(s, e))
  {
    hide Reached, Inv, Acquire, Before, Whole, AnswersRight, Granted, ResumeAcquire, Finish;
    ReachedInv(s);
    InvParts(s);
    if e.EvAcquire? {
      AcquireAnswers(s, e.id);
    } else if Cur(s).cont.InAcquire? {
      var l := Cur(s).cont.lock;
      ResumeAcquireGrants(s, l);
      NotYetHeld(s, l);
      GrantAnswers(s, l);
    } else {
      AcquireAnswers(s, Cur(s).cont.mutex);
      ErrorAnswers(s, Cur(s).cont.mutex);
    }
  }

  /** A resumed lock waiter owns the lock already: the retry loop ends at once and its reclaimed-lock error is out of reach. */
  lemma ResumedWaiterOwns(s: Kernel, l: nat)
    requires Reached(s) && Cur(s).cont == InAcquire(l)
    ensures Obj(s, l) == Lock(Some(s.current)) && Step(s, EvResume) == Granted(s, l)
  {
    hide Reached, Inv, Before, Whole, ResumeAcquire, Granted;
    ReachedInv(s);
    InvParts(s);
    ResumeAcquireGrants(s, l);
  }
}
