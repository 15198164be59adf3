/** Terminal output over whole runs. */
module TtyTheorems {
  import opened Common
  import opened KernelState
  import opened KernelSteps
  import opened KernelInvariants
  import opened TtyProofs
  import StepFrames
  import StepTheorems
  import opened RunTheorems
  import SafetyTheorems

  // ---------- what is sent is what was accepted ----------

  /** The bytes of the accepted writes to terminal t, in the order of the calls. */
  function AcceptedIn(s: Kernel, es: seq<Event>, t: nat): seq<Byte>
    requires LegalRun(s, es)
    decreases |es|
  {
    if es == [] then [] else StepFrames.AcceptedBy(s, es[0], t) + AcceptedIn(Step(s, es[0]), es[1..], t)
  }

  lemma {:induction false} AcceptedGrows(s: Kernel, es: seq<Event>, t: nat)
    requires Inv(s) && LegalRun(s, es)
    ensures Term(Run(s, es), t).accepted == Term(s, t).accepted + AcceptedIn(s, es, t)
    ensures |Run(s, es).terms| == |s.terms|
    decreases |es|
  {
    hide Inv, Step, Legal, StepFrames.AcceptedBy, Term, Stepped;
    if es == [] {
      assert Term(s, t).accepted + [] == Term(s, t).accepted;
    } else {
      var s1 := Step(s, es[0]);
      StepTheorems.StepIsolated(s, es[0]);
      StepKept(s, es[0]);
      AcceptedGrows(s1, es[1..], t);
      AppendTwice(Term(s, t).accepted, StepFrames.AcceptedBy(s, es[0], t), AcceptedIn(s1, es[1..], t));
    }
  }

  lemma AppendTwice<T>(a: seq<T>, b: seq<T>, c: seq<T>)
    ensures (a + b) + c == a + (b + c)
  {
  }

  /**
   * In every state of every run from boot, what terminal t was sent, the rest of the write in flight and the
   * queued writes are the accepted writes, byte for byte in the order of the calls.
   */
  lemma OutputOfRun(s: Kernel, es: seq<Event>, t: nat)
    requires Booted(s) && LegalRun(s, es) && t < |s.terms|
    ensures var s' := Run(s, es);
      Flatten(Term(s', t).sent) + Rest(s', t) + Pending(s', Q(s', WriteQ(t))) == AcceptedIn(s, es, t)
  {
    hide Inv, LegalRun, Run, Booted, AcceptedIn, Rest, Pending, Term;
    BootInv(s);
    RunKept(s, es);
    AcceptedGrows(s, es, t);
    SafetyTheorems.OutputIsFifo(Run(s, es), t);
    BootBlank(s, t);
    assert [] + AcceptedIn(s, es, t) == AcceptedIn(s, es, t);
  }

  lemma BootBlank(s: Kernel, t: nat)
    requires Booted(s) && t < |s.terms|
    ensures Term(s, t).accepted == []
  {
  }

  // ---------- the write in flight ----------

  lemma MakeReadyTerms(s: Kernel, p: Pid, pcb: Pcb)
    ensures MakeReady(s, p, pcb).terms == s.terms && MakeReady(s, p, pcb).queues == s.queues
  {
  }

  lemma {:induction false} WakeDelayedTerms(s: Kernel, i: nat)
    ensures WakeDelayed(s, i).terms == s.terms && WakeDelayed(s, i).queues == s.queues
    decreases MAX_PROCS - i
  {
    hide MakeReady;
    if i < MAX_PROCS {
      if DelayOver(s, i) {
        MakeReadyTerms(s, i, s.procs[i].(delayUntil := 0));
      }
      WakeDelayedTerms(WakeDelayedAt(s, i), i + 1);
    }
  }

  lemma ScheduleTerms(s: Kernel)
    ensures Schedule(s).terms == s.terms && Schedule(s).queues == s.queues
  {
    hide WakeDelayed, MakeReady;
    WakeDelayedTerms(s, 0);
    var s1 := WakeDelayed(s, 0);
    MakeReadyTerms(s1, s1.current, Cur(s1));
  }

  predicate SameWriter(s: Kernel, s': Kernel, t: nat) {
    Term(s', t).writer == Term(s, t).writer
  }

  lemma ReadWriters(s: Kernel, s0: Kernel, t: nat, u: nat)
    requires s0.terms == s.terms
    ensures SameWriter(s, TtyReadLoop(s0, t), u)
  {
    hide Schedule;
    ScheduleTerms(Enqueue(s0, ReadQ(t), InTtyRead));
  }

  lemma ReceiveWriters(s: Kernel, u: int, data: seq<Byte>, ok: bool, t: nat)
    ensures SameWriter(s, TrapReceive(s, u, data, ok), t)
  {
  }

  lemma ReadCallWriters(s: Kernel, u: int, len: int, nullBuf: bool, t: nat)
    ensures SameWriter(s, TtyRead(s, u, len, nullBuf), t)
  {
    hide TtyReadLoop;
    if 0 <= u && 0 <= len {
      ReadWriters(s, SetCur(s, Cur(s).(ttyId := u, io := Cur(s).io.(readLen := len))), u, t);
    }
  }

  lemma {:induction false} StartWriteElsewhere(s: Kernel, u: nat, t: nat)
    requires u < |s.terms| && u != t
    ensures SameWriter(s, StartWrite(s, u), t)
    decreases |Q(s, WriteQ(u))| + (if Term(s, u).writer.Some? then 1 else 0), 1
  {
    var term := Term(s, u);
    if !term.busy && term.writer.Some? {
      TransmitElsewhere(s, u, t);
    } else if !term.busy && Q(s, WriteQ(u)) != [] {
      var w := Q(s, WriteQ(u))[0];
      var s1 := SetQ(s, WriteQ(u), Q(s, WriteQ(u))[1..]);
      var s2 := SetTerm(s1, u, term.(writer := Some(w)));
      TransmitElsewhere(SetProc(s2, w, Proc(s2, w).(blockQueue := None)), u, t);
    }
  }

  lemma {:induction false} TransmitElsewhere(s: Kernel, u: nat, t: nat)
    requires u < |s.terms| && Term(s, u).writer.Some? && u != t
    ensures SameWriter(s, Transmit(s, u), t)
    decreases |Q(s, WriteQ(u))| + 1, 0
  {
    var term := Term(s, u);
    var w := term.writer.value;
    var pcb := Proc(s, w);
    if pcb.io.writeOffset >= |pcb.io.writeBuf| {
      var s1 := SetTerm(s, u, term.(writer := None));
      MakeReadyTerms(s1, w, pcb);
      StartWriteElsewhere(MakeReady(s1, w, pcb), u, t);
    }
  }

  lemma TransmitTrapElsewhere(s: Kernel, u: int, t: nat)
    requires u != t
    ensures SameWriter(s, TrapTransmit(s, u), t)
  {
    hide StartWrite, MakeReady;
    if 0 <= u < |s.terms| {
      var s1 := SetTerm(s, u, Term(s, u).(busy := false));
      StartWriteElsewhere(s1, u, t);
      if Term(s1, u).writer.Some? {
        var w := Term(s1, u).writer.value;
        var pcb := Proc(s1, w).Returning(|Proc(s1, w).io.writeBuf|);
        var s2 := SetTerm(s1, u, Term(s1, u).(writer := None));
        MakeReadyTerms(s2, w, pcb);
        StartWriteElsewhere(MakeReady(s2, w, pcb), u, t);
      }
    }
  }

  lemma WriteWriters(s: Kernel, e: Event, t: nat)
    requires Legal(s, e) && e.EvTtyWrite? && Term(s, t).writer.Some?
    ensures SameWriter(s, Step(s, e), t)
  {
    hide StartWrite, Schedule;
    var u, mem, len := e.tty, e.mem, e.len;
    if 0 <= u < |s.terms| && mem.Some? && len > 0 && s.current != s.idle && !e.oom {
      var data := mem.value[..len];
      var s1 := StepFrames.WithAccepted(s, u, data);
      var pcb := Cur(s1).(ttyId := u, io := Cur(s1).io.(writeBuf := data, writeOffset := 0, writeChunks := 0),
                          state := Blocked, cont := InTtyWrite).Returning(len);
      var s2 := SetCur(s1, pcb);
      if u != t {
        var s3 := SetTerm(s2, u, Term(s2, u).(writer := Some(s.current)));
        StartWriteElsewhere(s3, u, t);
        ScheduleTerms(StartWrite(s3, u));
      }
      ScheduleTerms(SetQ(SetCur(s2, Cur(s2).(blockQueue := Some(WriteQ(u)))), WriteQ(u), Q(s2, WriteQ(u)) + [s.current]));
    }
  }

  /** Only the transmit trap of its terminal, or a write to a terminal without one, changes who is writing. */
  lemma WriterKept(s: Kernel, e: Event, t: nat)
    requires Inv(s) && Legal(s, e) && e != EvTransmit(t) && Term(s, t).writer.Some?
    ensures SameWriter(s, Step(s, e), t)
  {
    hide Inv, Schedule, TtyRead, TrapReceive, TrapTransmit, Term, TtyReadLoop;
    if OffTerminals(s, e) {
      TerminalsKept(s, e);
      SameTerms(s, Step(s, e), t);
    } else {
      match e {
        case EvResume => if Cur(s).cont.InTtyRead? { ReadWriters(s, s, Cur(s).ttyId, t); } else { SameTerms(s, Step(s, e), t); }
        case EvTtyRead(u, len, nullBuf) => ReadCallWriters(s, u, len, nullBuf, t);
        case EvTtyWrite(_, _, _, _) => WriteWriters(s, e, t);
        case EvReceive(u, data, ok) => ReceiveWriters(s, u, data, ok, t);
        case EvTransmit(u) => TransmitTrapElsewhere(s, u, t);
      }
    }
  }

  lemma SameTerms(s: Kernel, s': Kernel, t: nat)
    requires s'.terms == s.terms
    ensures SameWriter(s, s', t)
  {
  }

  /** The number of chunks a write of len bytes takes. */
  function Chunks(len: nat): nat {
    (len + TERMINAL_MAX_LINE - 1) / TERMINAL_MAX_LINE
  }

  lemma ChunksAre(k: nat, len: nat, m: Positive)
    requires k > 0 && len <= k * m && (k - 1) * m < len
    ensures (len + m - 1) / m == k
  {
    assert (k - 1) * m + m == k * m && (k + 1) * m == k * m + m;
    DivStep(len + m - 1, k, m);
  }

  /** The write of w is over: every byte was sent, in as many transmits as its length needs, and w is ready again. */
  predicate WriteOver(s: Kernel, w: Pid, s': Kernel) {
    var io := Proc(s, w).io;
    io.writeOffset == |io.writeBuf| && io.writeChunks == Chunks(|io.writeBuf|) && w in s'.ready
  }

  lemma TrapEndsWrite(s: Kernel, t: nat, w: Pid)
    requires Inv(s) && t < |s.terms| && Term(s, t).writer == Some(w)
    ensures var s' := TrapTransmit(s, t);
      if Proc(s, w).io.writeOffset < |Proc(s, w).io.writeBuf| then Term(s', t).writer == Some(w)
      else WriteOver(s, w, s') && Term(s', t).writer != Some(w)
  {
    hide Inv, PlaceInv, LockInv, PipeInv, FamilyInv, TtyInv, StreamRight, InputRight, StartWrite, TrapTransmit,
      Chunks;
    InvParts(s);
    TerminalOf(s, t);
    WriterParked(s, t, w);
    TrapTransmitIs(s, t);
    var io := Proc(s, w).io;
    if io.writeOffset == |io.writeBuf| {
      AllChunks(io.writeChunks, |io.writeBuf|);
      FreshQueue(s, t);
      StartWriteAfter(WriteDone(s, t, w), t, w);
    }
  }

  lemma AllChunks(k: nat, len: nat)
    requires k > 0 && len == Min(k * TERMINAL_MAX_LINE, len) && (k - 1) * TERMINAL_MAX_LINE < len
    ensures k == Chunks(len)
  {
    ChunksAre(k, len, TERMINAL_MAX_LINE);
  }

  lemma FreshQueue(s: Kernel, t: nat)
    requires StreamRight(s, t) && PlaceInv(s)
    ensures Q(s, WriteQ(t)) != [] ==> FreshWrite(Proc(s, Q(s, WriteQ(t))[0]), t) && Q(s, WriteQ(t))[0] in s.procs
  {
    HeadIn(Q(s, WriteQ(t)));
  }

  lemma StartWriteAfter(s: Kernel, t: nat, w: Pid)
    requires t < |s.terms| && Term(s, t).writer.None? && !Term(s, t).busy && w in s.ready && w !in Q(s, WriteQ(t))
    requires Q(s, WriteQ(t)) != [] ==> FreshWrite(Proc(s, Q(s, WriteQ(t))[0]), t) && Q(s, WriteQ(t))[0] in s.procs
    ensures w in StartWrite(s, t).ready && Term(StartWrite(s, t), t).writer != Some(w)
  {
    hide StartWrite;
    StartWriteIs(s, t);
  }

  /**
   * A write in flight stays in flight through everything but the transmit trap of its terminal, and that trap
   * ends it only when all its bytes were sent, in exactly ceil(len / TERMINAL_MAX_LINE) chunks.
   */
  lemma WriteInFlight(s: Kernel, e: Event, t: nat, w: Pid)
    requires Reached(s) && Legal(s, e) && t < |s.terms| && Term(s, t).writer == Some(w)
    ensures var s' := Step(s, e);
      Term(s', t).writer == Some(w) || (e == EvTransmit(t) && WriteOver(s, w, s'))
  {
    hide Reached, Inv, WriteOver, Step, Term;
    ReachedInv(s);
    if e == EvTransmit(t) {
      TrapEndsWrite(s, t, w);
      TrapIs(s, t);
    } else {
      WriterKept(s, e, t);
    }
  }

  lemma TrapIs(s: Kernel, t: nat)
    requires Legal(s, EvTransmit(t))
    ensures Step(s, EvTransmit(t)) == TrapTransmit(s, t)
  {
  }
}
