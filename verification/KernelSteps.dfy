/**
 * One system-call segment, resumption or trap of the kernel as a function on its state
 * (src/ipc.c, src/tty.c, src/syscalls.c, src/process.c, src/trap.c). The kernel is never preempted,
 * so a run is a sequence of these steps.
 */
module KernelSteps {
  import opened Common
  import opened KernelState

  // ---------- locks ----------

  function LockOwner(s: Kernel, id: int): Option<Pid> {
    match Obj(s, id) case Lock(o) => o case _ => None
  }

  /** LockRelease: the first waiter, if any, is given the lock before it runs. */
  function LockRelease(s: Kernel, l: nat): Kernel
    requires Obj(s, l).Lock?
  {
    var s1 := match LockOwner(s, l)
      case Some(p) => SetProc(s, p, Proc(s, p).WithHeld(Proc(s, p).user.held - {l}))
      case None => s;
    var s2 := SetObj(s1, l, Lock(None));
    var next := Woken(s2, ObjectQ(l));
    var s3 := WakeOne(s2, ObjectQ(l));
    if next.None? then s3 else SetObj(s3, l, Lock(next))
  }

  function Granted(s: Kernel, l: nat): Kernel {
    Finish(s, Cur(s).WithHeld(Cur(s).user.held + {l}), SUCCESS)
  }

  /** The loop of LockAcquire, up to its end or to the next time it blocks. */
  function AcquireLoop(s: Kernel, l: nat): Kernel
    requires Obj(s, l).Lock?
  {
    if LockOwner(s, l).None? then Granted(SetObj(s, l, Lock(Some(s.current))), l)
    else BlockOn(s, ObjectQ(l), InAcquire(l))
  }

  /** LockAcquire, and SysAcquire */
  function Acquire(s: Kernel, l: int): Kernel {
    if !Obj(s, l).Lock? || s.current == s.idle then Return(s, ERROR)
    else if LockOwner(s, l) == Some(s.current) then Return(s, ERROR)
    else AcquireLoop(s, l)
  }

  function ResumeAcquire(s: Kernel, l: nat): Kernel {
    if !Obj(s, l).Lock? then Return(s, ERROR)
    else if LockOwner(s, l) == Some(s.current) then Granted(s, l)
    else AcquireLoop(s, l)
  }

  function Release(s: Kernel, l: int): Kernel {
    if LockOwner(s, l) != Some(s.current) then Return(s, ERROR)
    else Return(LockRelease(s, l), SUCCESS)
  }

  /** The loop of IpcProcessExit from object i on. */
  function ReleaseAll(s: Kernel, p: Pid, i: nat): (s': Kernel)
    ensures |s'.objects| == |s.objects|
    decreases |s.objects| - i
  {
    if i >= |s.objects| then s
    else ReleaseAll(if Obj(s, i) == Lock(Some(p)) then LockRelease(s, i) else s, p, i + 1)
  }

  // ---------- condition variables ----------

  function CvarWait(s: Kernel, c: int, l: int): Kernel {
    if !Obj(s, c).Cvar? || LockOwner(s, l) != Some(s.current) then Return(s, ERROR)
    else BlockOn(LockRelease(s, l), ObjectQ(c), InCvarWait(c, l))
  }

  function ResumeCvarWait(s: Kernel, c: nat, l: int): Kernel {
    if !Obj(s, c).Cvar? then Return(s, ERROR) else Acquire(s, l)
  }

  function Signal(s: Kernel, c: int): Kernel {
    if !Obj(s, c).Cvar? then Return(s, ERROR) else Return(WakeOne(s, ObjectQ(c)), SUCCESS)
  }

  function Broadcast(s: Kernel, c: int): Kernel {
    if !Obj(s, c).Cvar? then Return(s, ERROR) else Return(WakeAll(s, ObjectQ(c)), SUCCESS)
  }

  // ---------- pipes ----------

  /** The capacity the doubling loop of PipeEnsureCapacity ends with. */
  function GrownCap(cap: Positive, needed: nat): (c: Positive)
    ensures needed <= c && cap <= c
    ensures c == cap || c < 2 * needed
    decreases needed - cap
  {
    if cap < needed then GrownCap(2 * cap, needed) else cap
  }

  function Min(a: int, b: int): int {
    if a < b then a else b
  }

  /** The loop of SysPipeRead, up to its end or to the next time it blocks. */
  function PipeReadLoop(s: Kernel, id: nat, len: Positive): Kernel
    requires Obj(s, id).Pipe?
  {
    var pipe := Obj(s, id);
    if pipe.buf == [] then BlockOn(s, ObjectQ(id), InPipeRead(id, len))
    else
      var n := Min(|pipe.buf|, len);
      var s1 := SetObj(s, id, pipe.(buf := pipe.buf[n..], taken := pipe.taken + pipe.buf[..n]));
      Finish(s1, Cur(s1).(user := Cur(s1).user.(got := pipe.buf[..n])), n)
  }

  function PipeRead(s: Kernel, id: int, len: int, nullBuf: bool): Kernel {
    if len < 0 || (nullBuf && len > 0) then Return(s, ERROR)
    else if len == 0 then Return(s, 0)
    else if s.current == s.idle || !Obj(s, id).Pipe? then Return(s, ERROR)
    else PipeReadLoop(s, id, len)
  }

  function ResumePipeRead(s: Kernel, id: nat, len: Positive): Kernel {
    if !Obj(s, id).Pipe? then Return(s, ERROR) else PipeReadLoop(s, id, len)
  }

  /** A pipe after data was appended to it. */
  function Appended(pipe: Object, data: seq<Byte>): (p: Object)
    requires pipe.Pipe?
  {
    var needed := |pipe.buf| + |data|;
    var cap := if needed <= pipe.cap then pipe.cap else GrownCap(pipe.cap, needed);
    Pipe(pipe.buf + data, cap, pipe.written + data, pipe.taken)
  }

  /** SysPipeWrite; `mem` is the memory at the caller's pointer, `oom` a failing malloc. */
  function PipeWrite(s: Kernel, id: int, mem: Option<seq<Byte>>, len: int, oom: bool): Kernel
    requires mem.Some? && len > 0 ==> len <= |mem.value|
  {
    if len < 0 || (mem.None? && len > 0) then Return(s, ERROR)
    else if len == 0 then Return(s, 0)
    else if !Obj(s, id).Pipe? then Return(s, ERROR)
    else if |Obj(s, id).buf| + len > Obj(s, id).cap && oom then Return(s, ERROR)
    else Return(WakeAll(SetObj(s, id, Appended(Obj(s, id), mem.value[..len])), ObjectQ(id)), len)
  }

  // ---------- the object table ----------

  /** The index AllocObject finds, or the size of the table. */
  function FirstFree(objects: seq<Object>): (i: nat)
    ensures i <= |objects|
    ensures i < |objects| ==> objects[i].Free?
    ensures forall j :: 0 <= j < i ==> !objects[j].Free?
  {
    if objects == [] || objects[0].Free? then 0
    else
      var i := 1 + FirstFree(objects[1..]);
      assert forall j :: 0 < j < i ==> objects[j] == objects[1..][j - 1];
      i
  }

  /** SysLockInit, SysCvarInit and SysPipeInit; `oom` is a failing malloc of the last. */
  function InitObject(s: Kernel, o: Object, nullPtr: bool, oom: bool): Kernel {
    var id := FirstFree(s.objects);
    if nullPtr || id == |s.objects| || oom then Return(s, ERROR)
    else
      var s1 := SetQ(SetObj(s, id, o), ObjectQ(id), []);
      Finish(s1, Cur(s1).(user := Cur(s1).user.(stored := id)), SUCCESS)
  }

  function Reclaim(s: Kernel, id: int): Kernel {
    if Obj(s, id).Free? || LockOwner(s, id).Some? || Q(s, ObjectQ(id)) != [] then Return(s, ERROR)
    else Return(SetObj(s, id, Free), SUCCESS)
  }

  // ---------- terminal output ----------

  /** TtyStartWrite */
  function StartWrite(s: Kernel, t: nat): Kernel
    requires t < |s.terms|
    decreases |Q(s, WriteQ(t))| + (if Term(s, t).writer.Some? then 1 else 0), 1
  {
    var term := Term(s, t);
    if term.busy then s
    else if term.writer.None? then
      if Q(s, WriteQ(t)) == [] then s
      else
        var w := Q(s, WriteQ(t))[0];
        var s1 := SetQ(s, WriteQ(t), Q(s, WriteQ(t))[1..]);
        var s2 := SetTerm(s1, t, term.(writer := Some(w)));
        Transmit(SetProc(s2, w, Proc(s2, w).(blockQueue := None)), t)
    else Transmit(s, t)
  }

  /** The part of TtyStartWrite that has a writer. */
  function Transmit(s: Kernel, t: nat): Kernel
    requires t < |s.terms| && Term(s, t).writer.Some?
    decreases |Q(s, WriteQ(t))| + 1, 0
  {
    var term := Term(s, t);
    var w := term.writer.value;
    var pcb := Proc(s, w);
    var io := pcb.io;
    if io.writeOffset >= |io.writeBuf| then StartWrite(MakeReady(SetTerm(s, t, term.(writer := None)), w, pcb), t)
    else
      var end := Min(io.writeOffset + TERMINAL_MAX_LINE, |io.writeBuf|);
      var s1 := SetTerm(s, t, term.(busy := true, sent := term.sent + [io.writeBuf[io.writeOffset..end]]));
      SetProc(s1, w, pcb.(io := io.(writeOffset := end, writeChunks := io.writeChunks + 1)))
  }

  /** SysTtyWrite up to the point where it schedules */
  function TtyWrite(s: Kernel, t: int, mem: Option<seq<Byte>>, len: int, oom: bool): Kernel
    requires mem.Some? && len > 0 ==> len <= |mem.value|
  {
    if !(0 <= t < |s.terms|) || len < 0 || (mem.None? && len > 0) then Return(s, ERROR)
    else if len == 0 then Return(s, 0)
    else if s.current == s.idle || oom then Return(s, ERROR)
    else
      var data := mem.value[..len];
      var term := Term(s, t);
      var s1 := SetTerm(s, t, term.(accepted := term.accepted + data));
      var s2 := SetCur(s1, Cur(s1).(ttyId := t, io := Cur(s1).io.(writeBuf := data, writeOffset := 0, writeChunks := 0),
                                    state := Blocked, cont := InTtyWrite).Returning(len));
      if term.writer.None? && !term.busy
      then Schedule(StartWrite(SetTerm(s2, t, Term(s2, t).(writer := Some(s.current))), t))
      else Schedule(SetQ(SetCur(s2, Cur(s2).(blockQueue := Some(WriteQ(t)))), WriteQ(t),
                         Q(s2, WriteQ(t)) + [s.current]))
  }

  function ResumeTtyWrite(s: Kernel): Kernel {
    Finish(s, Cur(s).(io := Cur(s).io.(writeBuf := [], writeOffset := 0, writeChunks := 0)), |Cur(s).io.writeBuf|)
  }

  /** TrapTtyTransmit */
  function TrapTransmit(s: Kernel, t: int): Kernel {
    if !(0 <= t < |s.terms|) then s
    else
      var s1 := SetTerm(s, t, Term(s, t).(busy := false));
      match Term(s1, t).writer
      case None => StartWrite(s1, t)
      case Some(w) =>
        var pcb := Proc(s1, w);
        if pcb.io.writeOffset >= |pcb.io.writeBuf| then
          var s2 := SetTerm(s1, t, Term(s1, t).(writer := None));
          StartWrite(MakeReady(s2, w, pcb.Returning(|pcb.io.writeBuf|)), t)
        else StartWrite(s1, t)
  }

  // ---------- terminal input ----------

  /** The line TtyCopyLine would use, and the terminal and PCB without it (TtyNextLine). */
  function NextLine(term: Terminal, pcb: Pcb): (Option<Line>, Terminal) {
    if pcb.io.readLine.Some? then (pcb.io.readLine, term)
    else if term.line.Some? then (term.line, term.(line := None))
    else if term.inputQueue != [] then (Some(term.inputQueue[0]), term.(inputQueue := term.inputQueue[1..]))
    else (None, term)
  }

  /** The loop of SysTtyRead, up to its end or to the next time it blocks. */
  function TtyReadLoop(s: Kernel, t: nat): Kernel {
    var (found, term) := NextLine(Term(s, t), Cur(s));
    match found
    case None => BlockOn(s, ReadQ(t), InTtyRead)
    case Some(line) =>
      var n := Min(|line.data| - line.pos, Cur(s).io.readLen);
      var rest := Line(line.data, line.pos + n);
      var s1 := SetTerm(s, t, if rest.pos < |rest.data| then term.(line := Some(rest)) else term);
      Finish(s1, Cur(s1).(io := Cur(s1).io.(readLine := None), user := Cur(s1).user.(got := line.data[line.pos..rest.pos])), n)
  }

  function TtyRead(s: Kernel, t: int, len: int, nullBuf: bool): Kernel {
    if !(0 <= t < |s.terms|) || len < 0 || (nullBuf && len > 0) then Return(s, ERROR)
    else if len == 0 then Return(s, 0)
    else if s.current == s.idle then Return(s, ERROR)
    else TtyReadLoop(SetCur(s, Cur(s).(ttyId := t, io := Cur(s).io.(readLen := len))), t)
  }

  function ResumeTtyRead(s: Kernel): Kernel {
    TtyReadLoop(s, Cur(s).ttyId)
  }

  /** TrapTtyReceive; `ok` is false when calloc or TtyReceive fails. */
  function TrapReceive(s: Kernel, t: int, data: seq<Byte>, ok: bool): Kernel {
    if !(0 <= t < |s.terms|) || !ok then s
    else if Q(s, ReadQ(t)) != [] then
      var r := Q(s, ReadQ(t))[0];
      var s1 := SetQ(s, ReadQ(t), Q(s, ReadQ(t))[1..]);
      MakeReady(s1, r, Proc(s1, r).(blockQueue := None, io := Proc(s1, r).io.(readLine := Some(Line(data, 0)))))
    else SetTerm(s, t, Term(s, t).(inputQueue := Term(s, t).inputQueue + [Line(data, 0)]))
  }

  // ---------- the life of processes ----------

  /** The loop that clears the parent of every child (src/process.c:274-278). */
  function Orphan(s: Kernel, p: Pid): (s': Kernel)
    decreases |Proc(s, p).kin.children|
  {
    var cs := Proc(s, p).kin.children;
    if cs == [] then s
    else
      var s1 := SetProc(s, p, Proc(s, p).WithChildren(cs[1..]));
      Orphan(SetProc(s1, cs[0], Proc(s1, cs[0]).WithParent(None)), p)
  }

  /** ProcessExitCurrent; the exits of idle and init stop the machine and are no steps. */
  function Exit(s: Kernel, status: int): Kernel {
    var p := s.current;
    var s1 := ReleaseAll(Orphan(s, p), p, 0);
    var s2 := SetProc(s1, p, Proc(s1, p).(kin := Proc(s1, p).kin.(exitStatus := status), state := Zombie));
    Schedule(match Proc(s2, p).kin.parent
             case Some(q) =>
               if Proc(s2, q).waitingForChild
               then MakeReady(s2, q, Proc(s2, q).(waitingForChild := false)) else s2
             case None => s2)
  }

  /** ProcessDestroy */
  function Destroy(s: Kernel, p: Pid): Kernel {
    var s1 := match Proc(s, p).kin.parent
      case Some(q) => SetProc(s, q, Proc(s, q).WithChildren(Without(Proc(s, q).kin.children, p)))
      case None => s;
    var s2 := Orphan(s1, p);
    var s3 := s2.(ready := Without(s2.ready, p));
    var s4 := match Proc(s3, p).blockQueue
      case Some(q) => SetQ(s3, q, Without(Q(s3, q), p))
      case None => s3;
    s4.(procs := s4.procs - {p})
  }

  /** The first zombie among the children, in list order. */
  function FirstZombie(s: Kernel, cs: seq<Pid>): Option<Pid> {
    if cs == [] then None
    else if Proc(s, cs[0]).state.Zombie? then Some(cs[0])
    else FirstZombie(s, cs[1..])
  }

  /** The loop of SysWait, up to its end or to the next time it blocks. */
  function Wait(s: Kernel, wantStatus: bool): Kernel {
    if s.current == s.idle then Return(s, ERROR)
    else
      match FirstZombie(s, Cur(s).kin.children)
      case Some(c) =>
        var s1 := if wantStatus then SetCur(s, Cur(s).(user := Cur(s).user.(stored := Proc(s, c).kin.exitStatus))) else s;
        Return(Destroy(s1, c), c)
      case None =>
        if Cur(s).kin.children == [] then Return(s, ERROR)
        else Schedule(SetCur(s, Cur(s).(waitingForChild := true, state := Blocked, cont := InWait(wantStatus))))
  }

  function ResumeWait(s: Kernel, wantStatus: bool): Kernel {
    Wait(SetCur(s, Cur(s).(waitingForChild := false)), wantStatus)
  }

  /**
   * SysFork. `child` is the pid helper_new_pid would give; `made` is false when memory or pids run out
   * in ProcessCreateChild, `cloned` when copying the kernel context fails.
   */
  function Fork(s: Kernel, child: Pid, made: bool, cloned: bool): Kernel {
    if s.current == s.idle || !made then Return(s, ERROR)
    else
      var s1 := SetProc(s, child, BlankPcb.WithParent(Some(s.current)));
      var s2 := SetCur(s1, Cur(s1).WithChildren(Cur(s1).kin.children + [child]));
      if !cloned then Return(Destroy(s2, child), ERROR)
      else Return(MakeReady(s2, child, Proc(s2, child)), child)
  }

  function Delay(s: Kernel, ticks: int): Kernel {
    if ticks < 0 then Return(s, ERROR)
    else if ticks == 0 then Return(s, SUCCESS)
    else if s.current == s.idle then Return(s, ERROR)
    else Schedule(SetCur(s, Cur(s).(delayUntil := s.clock + ticks, state := Blocked, cont := InDelay).Returning(SUCCESS)))
  }

  /** TrapClock */
  function Clock(s: Kernel): Kernel {
    Schedule(s.(clock := s.clock + 1))
  }

  // ---------- runs ----------

  datatype Event =
    | EvResume
    | EvFork(child: Pid, made: bool, cloned: bool)
    | EvExit(status: int)
    | EvWait(wantStatus: bool)
    | EvDelay(ticks: int)
    | EvTtyRead(tty: int, len: int, nullBuf: bool)
    | EvTtyWrite(tty: int, mem: Option<seq<Byte>>, len: int, oom: bool)
    | EvPipeInit(nullPtr: bool, oom: bool)
    | EvPipeRead(id: int, len: int, nullBuf: bool)
    | EvPipeWrite(id: int, mem: Option<seq<Byte>>, len: int, oom: bool)
    | EvLockInit(nullPtr: bool)
    | EvAcquire(id: int)
    | EvRelease(id: int)
    | EvCvarInit(nullPtr: bool)
    | EvSignal(id: int)
    | EvBroadcast(id: int)
    | EvCvarWait(cvar: int, mutex: int)
    | EvReclaim(id: int)
    | EvClock
    | EvReceive(tty: int, data: seq<Byte>, ok: bool)
    | EvTransmit(tty: int)

  /** The current process has kernel work left, so nothing else can happen first. */
  predicate MustResume(s: Kernel) {
    !Cur(s).cont.ToUser?
  }

  /** Which events can happen in s: what the hardware and the framework guarantee, and no more. */
  predicate Legal(s: Kernel, e: Event) {
    if e.EvResume? then MustResume(s)
    else
      && !MustResume(s)
      && match e
         case EvFork(c, _, _) => c !in s.procs && c < MAX_PROCS
         case EvExit(_) => s.current != s.idle && s.current != s.init
         case EvTtyWrite(_, mem, len, _) => mem.Some? && len > 0 ==> len <= |mem.value|
         case EvPipeWrite(_, mem, len, _) => mem.Some? && len > 0 ==> len <= |mem.value|
         case EvReceive(_, data, _) => |data| <= TERMINAL_MAX_LINE
         case _ => true
  }

  /** A process continues in the kernel function where it blocked. */
  function Resume(s: Kernel): Kernel {
    match Cur(s).cont
    case ToUser => s
    case InAcquire(l) => ResumeAcquire(s, l)
    case InCvarWait(c, l) => ResumeCvarWait(s, c, l)
    case InPipeRead(id, len) => ResumePipeRead(s, id, len)
    case InTtyRead => ResumeTtyRead(s)
    case InTtyWrite => ResumeTtyWrite(s)
    case InDelay => Return(s, SUCCESS)
    case InWait(wantStatus) => ResumeWait(s, wantStatus)
  }

  function Step(s: Kernel, e: Event): Kernel
    requires Legal(s, e)
  {
    match e
    case EvResume => Resume(s)
    case EvFork(c, made, cloned) => Fork(s, c, made, cloned)
    case EvExit(status) => Exit(s, status)
    case EvWait(want) => Wait(s, want)
    case EvDelay(n) => Delay(s, n)
    case EvTtyRead(t, len, nullBuf) => TtyRead(s, t, len, nullBuf)
    case EvTtyWrite(t, mem, len, oom) => TtyWrite(s, t, mem, len, oom)
    case EvPipeInit(nullPtr, oom) => InitObject(s, Pipe([], PIPE_BUFFER_LEN, [], []), nullPtr, oom)
    case EvPipeRead(id, len, nullBuf) => PipeRead(s, id, len, nullBuf)
    case EvPipeWrite(id, mem, len, oom) => PipeWrite(s, id, mem, len, oom)
    case EvLockInit(nullPtr) => InitObject(s, Lock(None), nullPtr, false)
    case EvAcquire(id) => Acquire(s, id)
    case EvRelease(id) => Release(s, id)
    case EvCvarInit(nullPtr) => InitObject(s, Cvar, nullPtr, false)
    case EvSignal(id) => Signal(s, id)
    case EvBroadcast(id) => Broadcast(s, id)
    case EvCvarWait(c, l) => CvarWait(s, c, l)
    case EvReclaim(id) => Reclaim(s, id)
    case EvClock => Clock(s)
    case EvReceive(t, data, ok) => TrapReceive(s, t, data, ok)
    case EvTransmit(t) => TrapTransmit(s, t)
  }

  /** Every event of es is possible when its turn comes. */
  predicate LegalRun(s: Kernel, es: seq<Event>)
    decreases |es|
  {
    es == [] || (Legal(s, es[0]) && LegalRun(Step(s, es[0]), es[1..]))
  }

  function Run(s: Kernel, es: seq<Event>): Kernel
    requires LegalRun(s, es)
    decreases |es|
  {
    if es == [] then s else Run(Step(s, es[0]), es[1..])
  }

  /** The kernel when KernelStart has left for init's program. */
  ghost predicate Booted(s: Kernel) {
    && s.idle != s.init && s.idle < MAX_PROCS && s.init < MAX_PROCS
    && s.procs == map[s.idle := BlankPcb.(state := Running), s.init := BlankPcb.(state := Running)]
    && s.ready == [] && s.current == s.init && (forall q :: Q(s, q) == []) && s.clock == 0
    && |s.objects| == IPC_MAX_OBJECTS && (forall i :: 0 <= i < |s.objects| ==> s.objects[i] == Free)
    && |s.terms| == NUM_TERMINALS && (forall t :: 0 <= t < |s.terms| ==> s.terms[t] == BlankTerminal)
  }
}
