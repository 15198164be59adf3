/**
 * The state of the process half of the kernel: the PCBs, the ready queue, every wait queue,
 * the IPC object table, the terminals and the clock, with the operations all system calls are
 * made of (src/process.c, and the static helpers of src/ipc.c and src/tty.c).
 *
 * A PCB is named by its pid. A queue is the sequence of the pids linked in it, head first;
 * module IntrusiveQueue shows that the pointer structure behaves as that sequence.
 */
module KernelState {
  import opened Common

  type Pid = nat

  datatype ProcState = Ready | Running | Blocked | Zombie

  /** Every wait queue of the kernel: one per IPC object, two per terminal. */
  datatype QueueId = ObjectQ(id: nat) | ReadQ(tty: nat) | WriteQ(tty: nat)

  /** What a process does, inside the kernel, when it next gets the processor. */
  datatype Cont =
    | ToUser
    | InAcquire(lock: nat)
    | InCvarWait(cvar: nat, mutex: int)
    | InPipeRead(pipe: nat, len: Positive)
    | InTtyRead
    | InTtyWrite
    | InDelay
    | InWait(wantStatus: bool)

  datatype RawLine = Line(data: seq<Byte>, pos: nat)

  /** A received line, of which the first `pos` bytes have been read. */
  type Line = l: RawLine | l.pos <= |l.data| witness Line([], 0)

  /**
   * What user code of a process can see: `result` is regs[0] of its saved context, `stored` the last
   * word and `got` the last bytes the kernel wrote through one of its pointers. `held` is history: the
   * locks an Acquire or CvarWait that returned SUCCESS gave it and that it has not released since.
   */
  datatype User = User(result: int, stored: int, got: seq<Byte>, held: set<nat>)

  datatype Kin = Kin(parent: Option<Pid>, children: seq<Pid>, exitStatus: int)

  /** `writeChunks` is history: the TtyTransmit calls made for the current write. */
  datatype Io = Io(
    readLen: nat, readLine: Option<Line>,
    writeBuf: seq<Byte>, writeOffset: nat, writeChunks: nat)

  /** A process control block (src/process.h:15-39), its fields grouped by what uses them. */
  datatype Pcb = Pcb(
    state: ProcState,
    cont: Cont,
    blockQueue: Option<QueueId>,
    delayUntil: nat,
    waitingForChild: bool,
    ttyId: nat,
    kin: Kin,
    io: Io,
    user: User)
  {
    function Returning(r: int): Pcb {
      this.(user := user.(result := r))
    }

    function WithHeld(held: set<nat>): Pcb {
      this.(user := user.(held := held))
    }

    function WithParent(parent: Option<Pid>): Pcb {
      this.(kin := kin.(parent := parent))
    }

    function WithChildren(children: seq<Pid>): Pcb {
      this.(kin := kin.(children := children))
    }
  }

  const NoIo := Io(0, None, [], 0, 0)

  /** A PCB as calloc and the initialisation of src/process.c:121-150 leave it. */
  const BlankPcb :=
    Pcb(Ready, ToUser, None, 0, false, 0, Kin(None, [], 0), NoIo, User(0, 0, [], {}))

  /** `sent` and `accepted` are history: the TtyTransmit calls, and the bytes of the accepted writes. */
  datatype Terminal = Terminal(
    inputQueue: seq<Line>,
    line: Option<Line>,
    writer: Option<Pid>,
    busy: bool,
    sent: seq<seq<Byte>>,
    accepted: seq<Byte>)

  const BlankTerminal := Terminal([], None, None, false, [], [])

  /** An entry of the IPC object table. `written` and `taken` are the history of one pipe's lifetime. */
  datatype Object =
    | Free
    | Lock(owner: Option<Pid>)
    | Cvar
    | Pipe(buf: seq<Byte>, cap: Positive, written: seq<Byte>, taken: seq<Byte>)

  datatype Kernel = Kernel(
    procs: map<Pid, Pcb>,
    ready: seq<Pid>,
    current: Pid,
    queues: map<QueueId, seq<Pid>>,
    objects: seq<Object>,
    terms: seq<Terminal>,
    clock: nat,
    idle: Pid,
    init: Pid)

  // ---------- reading and updating ----------

  function Proc(s: Kernel, p: Pid): Pcb {
    if p in s.procs then s.procs[p] else BlankPcb
  }

  function Cur(s: Kernel): Pcb {
    Proc(s, s.current)
  }

  function Q(s: Kernel, q: QueueId): seq<Pid> {
    if q in s.queues then s.queues[q] else []
  }

  /** GetObject: a bad id reads as a free slot. */
  function Obj(s: Kernel, id: int): Object {
    if 0 <= id < |s.objects| then s.objects[id] else Free
  }

  function Term(s: Kernel, t: int): Terminal {
    if 0 <= t < |s.terms| then s.terms[t] else BlankTerminal
  }

  function SetProc(s: Kernel, p: Pid, pcb: Pcb): Kernel {
    s.(procs := s.procs[p := pcb])
  }

  function SetCur(s: Kernel, pcb: Pcb): Kernel {
    SetProc(s, s.current, pcb)
  }

  function SetQ(s: Kernel, q: QueueId, v: seq<Pid>): Kernel {
    s.(queues := s.queues[q := v])
  }

  function SetObj(s: Kernel, id: nat, o: Object): Kernel {
    if id < |s.objects| then s.(objects := s.objects[id := o]) else s
  }

  function SetTerm(s: Kernel, t: nat, term: Terminal): Kernel {
    if t < |s.terms| then s.(terms := s.terms[t := term]) else s
  }

  // ---------- waking and scheduling ----------

  /** ProcessMakeReady for a process whose PCB has just become pcb. */
  function MakeReady(s: Kernel, p: Pid, pcb: Pcb): Kernel {
    if p !in s.procs then s
    else if p == s.idle || pcb.state.Zombie? then SetProc(s, p, pcb)
    else s.(procs := s.procs[p := pcb.(state := Ready)],
            ready := if p in s.ready then s.ready else s.ready + [p])
  }

  /** The process WakeOne takes off queue q, if any. */
  function Woken(s: Kernel, q: QueueId): Option<Pid> {
    if Q(s, q) == [] then None else Some(Q(s, q)[0])
  }

  function WakeOne(s: Kernel, q: QueueId): (s': Kernel)
    ensures Q(s, q) != [] ==> Q(s', q) == Q(s, q)[1..]
  {
    match Woken(s, q)
    case None => s
    case Some(p) =>
      var s1 := SetQ(s, q, Q(s, q)[1..]);
      MakeReady(s1, p, Proc(s1, p).(blockQueue := None).Returning(SUCCESS))
  }

  function WakeAll(s: Kernel, q: QueueId): Kernel
    decreases |Q(s, q)|
  {
    if Q(s, q) == [] then s else WakeAll(WakeOne(s, q), q)
  }

  predicate DelayOver(s: Kernel, p: Pid) {
    p in s.procs && s.procs[p].state.Blocked? && s.procs[p].delayUntil != 0 && s.procs[p].delayUntil <= s.clock
  }

  function WakeDelayedAt(s: Kernel, p: Pid): Kernel {
    if DelayOver(s, p) then MakeReady(s, p, s.procs[p].(delayUntil := 0)) else s
  }

  /** ProcessWakeDelayed, from slot i of the process table on. */
  function WakeDelayed(s: Kernel, i: nat): Kernel
    decreases MAX_PROCS - i
  {
    if i >= MAX_PROCS then s else WakeDelayed(WakeDelayedAt(s, i), i + 1)
  }

  /** ProcessSchedule puts the current process back only when it is marked running. */
  function RequeueCurrent(s: Kernel): Kernel {
    if s.current != s.idle && Cur(s).state.Running? then MakeReady(s, s.current, Cur(s)) else s
  }

  /** ProcessNextReady and ProcessSwitch; a process that picks itself is not marked running. */
  function SwitchNext(s: Kernel): Kernel {
    var next := if s.ready == [] then s.idle else s.ready[0];
    var s1 := if s.ready == [] then s else s.(ready := s.ready[1..]);
    if next == s.current then s1
    else SetProc(s1, next, Proc(s1, next).(state := Running)).(current := next)
  }

  /** ProcessSchedule */
  function Schedule(s: Kernel): Kernel {
    SwitchNext(RequeueCurrent(WakeDelayed(s, 0)))
  }

  /** The first half of BlockOnQueue, with the work left for the time the process resumes. */
  function Enqueue(s: Kernel, q: QueueId, c: Cont): Kernel {
    SetQ(SetCur(s, Cur(s).(state := Blocked, blockQueue := Some(q), cont := c)), q, Q(s, q) + [s.current])
  }

  /** BlockOnQueue */
  function BlockOn(s: Kernel, q: QueueId, c: Cont): Kernel {
    Schedule(Enqueue(s, q, c))
  }

  /** The end of a system call of the current process, whose PCB is to be pcb. */
  function Finish(s: Kernel, pcb: Pcb, r: int): Kernel {
    SetCur(s, pcb.(cont := ToUser).Returning(r))
  }

  function Return(s: Kernel, r: int): Kernel {
    Finish(s, Cur(s), r)
  }
}
