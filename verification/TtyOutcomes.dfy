/**
 * What every call and trap on a terminal answers, and what it does, in any state some run from boot leads to, told in
 * terms of the state before.
 */
module TtyOutcomes {
  import opened Common
  import opened KernelState
  import opened KernelSteps
  import opened KernelInvariants
  import TtyProofs
  import TtyCallProofs
  import opened RunTheorems
  import opened Outcomes

  // ---------- calls ----------

  /** The line a read uses: the caller's own, the leftover one, or the first of the input queue. */
  function LineFound(own: Option<Line>, term: Terminal): Option<Line> {
    if own.Some? then own else if term.line.Some? then term.line else if term.inputQueue != [] then Some(term.inputQueue[0]) else None
  }

  /** The terminal once n bytes of that line have been read. */
  function AfterReading(own: Option<Line>, term: Terminal, n: nat): Terminal
    requires LineFound(own, term).Some? && LineFound(own, term).value.pos + n <= |LineFound(own, term).value.data|
  {
    var line := LineFound(own, term).value;
    var rest := if line.pos + n < |line.data| then Some(Line(line.data, line.pos + n)) else None;
    if own.Some? then (if rest.Some? then term.(line := rest) else term)
    else if term.line.Some? then term.(line := rest)
    else term.(inputQueue := term.inputQueue[1..], line := rest)
  }

  /** One round of a terminal read: the bytes of one line, as many as asked for, or the end of the queue of readers. */
  ghost predicate ReadsTty(s: Kernel, t: nat, s': Kernel)
    requires s.current in s.procs && t < |s.terms|
  {
    var pcb, term := s.procs[s.current], s.terms[t];
    match LineFound(pcb.io.readLine, term)
    case None => ParksAt(s, ReadQ(t), InTtyRead, s')
    case Some(line) =>
      var n := if |line.data| - line.pos <= pcb.io.readLen then |line.data| - line.pos else pcb.io.readLen;
      var s1 := s.(terms := s.terms[t := AfterReading(pcb.io.readLine, term, n)],
                   procs := s.procs[s.current := pcb.(io := pcb.io.(readLine := None))]);
      s' == Answering(Filling(s1, line.data[line.pos..line.pos + n]), n)
  }

  lemma TtyLoopIs(s: Kernel, t: nat)
    requires Restful(s) && t < |s.terms|
    ensures ReadsTty(s, t, TtyReadLoop(s, t))
  {
    hide BlockOn, ParksAt;
    BlockIs(s, ReadQ(t), InTtyRead);
  }

  /** The caller's request is noted in its PCB. */
  function Requesting(s: Kernel, t: nat, len: nat): Kernel
    requires s.current in s.procs
  {
    var pcb := s.procs[s.current];
    s.(procs := s.procs[s.current := pcb.(ttyId := t, io := pcb.io.(readLen := len))])
  }

  /** A terminal read fails exactly for a bad terminal, length or buffer and the idle process. */
  lemma TtyReadOutcome(s: Kernel, t: int, len: int, nullBuf: bool)
    requires Reached(s) && Legal(s, EvTtyRead(t, len, nullBuf))
    ensures s.current in s.procs
    ensures var s' := Step(s, EvTtyRead(t, len, nullBuf));
      if !(0 <= t < |s.terms|) || len < 0 || (nullBuf && len > 0) || (len > 0 && s.current == s.idle) then s' == Answering(s, ERROR)
      else if len == 0 then s' == Answering(s, 0)
      else s.current in Requesting(s, t, len).procs && ReadsTty(Requesting(s, t, len), t, s')
  {
    hide Reached, Inv, PlaceInv, Restful, TtyReadLoop, ReadsTty;
    ReachedRests(s);
    ReturnIs(s, ERROR);
    ReturnIs(s, 0);
    if 0 <= t < |s.terms| && len > 0 && !nullBuf && s.current != s.idle {
      RequestRests(s, t, len);
      TtyLoopIs(Requesting(s, t, len), t);
    }
  }

  lemma RequestRests(s: Kernel, t: nat, len: nat)
    requires Restful(s)
    ensures Restful(Requesting(s, t, len))
  {
  }

  lemma TtyReadResumes(s: Kernel)
    requires Reached(s) && Cur(s).cont == InTtyRead
    ensures s.current in s.procs && Cur(s).ttyId < |s.terms| && ReadsTty(s, Cur(s).ttyId, Step(s, EvResume))
  {
    hide Reached, Inv, PlaceInv, Restful, TtyReadLoop, ReadsTty, Step;
    ReachedRests(s);
    ResumerNotIdle(s);
    ResumesAs(s);
    ReadersTerminal(s);
    TtyLoopIs(s, Cur(s).ttyId);
  }

  lemma ReadersTerminal(s: Kernel)
    requires Inv(s) && Cur(s).cont == InTtyRead && s.current in s.procs
    ensures Cur(s).ttyId < |s.terms|
  {
    hide PlaceInv, LockInv, PipeInv, FamilyInv, TtyInv;
    TtyCallProofs.ConsoleOf(s);
  }

  /** The caller sleeps in TtyWrite with its bytes copied; `sent` of them have gone to the terminal in `chunks` calls. */
  function WriterPcb(pcb: Pcb, t: nat, data: seq<Byte>, sent: nat, chunks: nat): Pcb {
    pcb.(ttyId := t, io := pcb.io.(writeBuf := data, writeOffset := sent, writeChunks := chunks), state := Blocked, cont := InTtyWrite,
         user := pcb.user.(result := |data|))
  }

  /** The write begins at once with its first chunk if the terminal is free, and else waits for its turn. */
  ghost predicate WritesTty(s: Kernel, t: nat, data: seq<Byte>, s': Kernel)
    requires s.current in s.procs && t < |s.terms|
  {
    var pcb, term := s.procs[s.current], s.terms[t];
    var accepted := term.accepted + data;
    if term.writer.None? && !term.busy then
      var n := if |data| <= TERMINAL_MAX_LINE then |data| else TERMINAL_MAX_LINE;
      Sleeps(s.(terms := s.terms[t := term.(writer := Some(s.current), busy := true, sent := term.sent + [data[..n]], accepted := accepted)]),
             WriterPcb(pcb, t, data, n, 1), s')
    else
      Sleeps(s.(terms := s.terms[t := term.(accepted := accepted)], queues := s.queues[WriteQ(t) := Q(s, WriteQ(t)) + [s.current]]),
             WriterPcb(pcb, t, data, 0, 0).(blockQueue := Some(WriteQ(t))), s')
  }

  /** The state of s once the first chunk is on its way. */
  function Launched(s: Kernel, t: nat, data: seq<Byte>): Kernel
    requires t < |s.terms|
  {
    var n := if |data| <= TERMINAL_MAX_LINE then |data| else TERMINAL_MAX_LINE;
    var term := s.terms[t];
    s.(terms := s.terms[t := term.(writer := Some(s.current), busy := true, sent := term.sent + [data[..n]], accepted := term.accepted + data)])
  }

  lemma LaunchIs(s: Kernel, t: nat, data: seq<Byte>)
    requires t < |s.terms| && data != [] && s.current in s.procs
    ensures var n := if |data| <= TERMINAL_MAX_LINE then |data| else TERMINAL_MAX_LINE;
      TtyCallProofs.DirectWrite(s, t, data) == SetCur(Launched(s, t, data), WriterPcb(s.procs[s.current], t, data, n, 1))
  {
    var s' := TtyCallProofs.DirectWrite(s, t, data);
    assert s'.terms == Launched(s, t, data).terms;
  }

  lemma WriteIs(s: Kernel, t: nat, mem: seq<Byte>, len: nat)
    requires Inv(s) && Restful(s) && t < |s.terms| && 0 < len <= |mem|
    ensures WritesTty(s, t, mem[..len], TtyWrite(s, t, Some(mem), len, false))
  {
    hide Inv, Schedule, Sleeps, TtyWrite, TtyCallProofs.DirectWrite;
    NoDelay(s);
    TtyCallProofs.TtyWriteIs(s, t, Some(mem), len);
    var pcb, term, data := s.procs[s.current], s.terms[t], mem[..len];
    if term.writer.None? && !term.busy {
      var n := if |data| <= TERMINAL_MAX_LINE then |data| else TERMINAL_MAX_LINE;
      LaunchIs(s, t, data);
      SleepIs(Launched(s, t, data), WriterPcb(pcb, t, data, n, 1));
    } else {
      var s1 := s.(terms := s.terms[t := term.(accepted := term.accepted + data)], queues := s.queues[WriteQ(t) := Q(s, WriteQ(t)) + [s.current]]);
      SleepIs(s1, WriterPcb(pcb, t, data, 0, 0).(blockQueue := Some(WriteQ(t))));
    }
  }

  /** A terminal write fails exactly for a bad terminal, length or buffer, the idle process and without memory for the copy. */
  lemma TtyWriteOutcome(s: Kernel, t: int, mem: Option<seq<Byte>>, len: int, oom: bool)
    requires Reached(s) && Legal(s, EvTtyWrite(t, mem, len, oom))
    ensures s.current in s.procs
    ensures var s' := Step(s, EvTtyWrite(t, mem, len, oom));
      if !(0 <= t < |s.terms|) || len < 0 || (mem.None? && len > 0) || (len > 0 && (s.current == s.idle || oom)) then s' == Answering(s, ERROR)
      else if len == 0 then s' == Answering(s, 0)
      else WritesTty(s, t, mem.value[..len], s')
  {
    hide Reached, Inv, PlaceInv, Restful, WritesTty, Schedule, StartWrite;
    ReachedRests(s);
    ReturnIs(s, ERROR);
    ReturnIs(s, 0);
    if 0 <= t < |s.terms| && len > 0 && mem.Some? && s.current != s.idle && !oom {
      WriteIs(s, t, mem.value, len);
    }
  }

  /** A writer resumes with the number of bytes it gave. */
  lemma TtyWriteResumes(s: Kernel)
    requires Reached(s) && Cur(s).cont == InTtyWrite
    ensures s.current in s.procs
    ensures var pcb := s.procs[s.current];
      Step(s, EvResume) == Answering(s.(procs := s.procs[s.current := pcb.(io := pcb.io.(writeBuf := [], writeOffset := 0, writeChunks := 0))]),
                                     |pcb.io.writeBuf|)
  {
    hide Reached, Inv, PlaceInv, Restful;
    ReachedRests(s);
  }

  /** A received line goes to the oldest waiting reader, who becomes ready, or to the end of the input queue. */
  lemma ReceiveOutcome(s: Kernel, t: int, data: seq<Byte>, ok: bool)
    requires Reached(s) && Legal(s, EvReceive(t, data, ok))
    ensures var s' := Step(s, EvReceive(t, data, ok));
      if !(0 <= t < |s.terms|) || !ok then s' == s
      else
        var readers := Q(s, ReadQ(t));
        if readers == [] then s' == s.(terms := s.terms[t := s.terms[t].(inputQueue := s.terms[t].inputQueue + [Line(data, 0)])])
        else
          readers[0] in s.procs &&
          var pcb := s.procs[readers[0]];
          s' == s.(procs := s.procs[readers[0] := pcb.(blockQueue := None, state := Ready, io := pcb.io.(readLine := Some(Line(data, 0))))],
                   ready := s.ready + [readers[0]], queues := s.queues[ReadQ(t) := readers[1..]])
  {
    hide Reached, Inv, PlaceInv, Restful;
    ReachedRests(s);
    if 0 <= t < |s.terms| && Q(s, ReadQ(t)) != [] {
      assert Q(s, ReadQ(t))[0] in Q(s, ReadQ(t));
      QueuedSleeps(s, ReadQ(t), Q(s, ReadQ(t))[0]);
    }
  }

  // ---------- the transmit trap ----------

  /** The next chunk of the write of process w, whose terminal is t, goes out. */
  function SendsChunk(s: Kernel, t: nat, w: Pid): Kernel
    requires t < |s.terms| && w in s.procs && s.procs[w].io.writeOffset <= |s.procs[w].io.writeBuf|
  {
    var term, pcb := s.terms[t], s.procs[w];
    var buf, from := pcb.io.writeBuf, pcb.io.writeOffset;
    var upTo := if |buf| - from <= TERMINAL_MAX_LINE then |buf| else from + TERMINAL_MAX_LINE;
    s.(terms := s.terms[t := term.(writer := Some(w), busy := true, sent := term.sent + [buf[from..upTo]])],
       procs := s.procs[w := pcb.(io := pcb.io.(writeOffset := upTo, writeChunks := pcb.io.writeChunks + 1))])
  }

  /** The write of process w is over: w is ready with its answer. */
  function WriteEnded(s: Kernel, t: nat, w: Pid): Kernel
    requires t < |s.terms| && w in s.procs
  {
    var pcb := s.procs[w];
    s.(terms := s.terms[t := s.terms[t].(writer := None, busy := false)], ready := s.ready + [w],
       procs := s.procs[w := pcb.(state := Ready, user := pcb.user.(result := |pcb.io.writeBuf|))])
  }

  /** The oldest queued writer of terminal t leaves the queue. */
  function NextWriter(s: Kernel, t: nat): Kernel
    requires Q(s, WriteQ(t)) != [] && Q(s, WriteQ(t))[0] in s.procs
  {
    var w := Q(s, WriteQ(t))[0];
    s.(queues := s.queues[WriteQ(t) := Q(s, WriteQ(t))[1..]], procs := s.procs[w := s.procs[w].(blockQueue := None)])
  }

  /** A transmit trap sends the next chunk of the write in flight, or ends it and begins the next one that is queued. */
  ghost predicate Transmits(s: Kernel, t: nat, s': Kernel)
    requires t < |s.terms|
  {
    match s.terms[t].writer
    case None => s' == s
    case Some(w) =>
      && w in s.procs && s.procs[w].io.writeOffset <= |s.procs[w].io.writeBuf|
      && if s.procs[w].io.writeOffset < |s.procs[w].io.writeBuf| then s' == SendsChunk(s, t, w)
         else
           var s1, queue := WriteEnded(s, t, w), Q(s, WriteQ(t));
           if queue == [] then s' == s1
           else
             && Q(s1, WriteQ(t)) == queue && queue[0] in s1.procs
             && var s2 := NextWriter(s1, t);
                && queue[0] in s2.procs && s2.procs[queue[0]].io.writeOffset <= |s2.procs[queue[0]].io.writeBuf|
                && s' == SendsChunk(s2, t, queue[0])
  }

  lemma TransmitOutcome(s: Kernel, t: int)
    requires Reached(s) && Legal(s, EvTransmit(t))
    ensures var s' := Step(s, EvTransmit(t)); if !(0 <= t < |s.terms|) then s' == s else Transmits(s, t, s')
  {
    hide Reached, Inv, PlaceInv, LockInv, PipeInv, FamilyInv, TtyInv, Restful, TrapTransmit, WriterRight, Transmits,
      TtyProofs.WholeTty;
    ReachedRests(s);
    InvParts(s);
    if 0 <= t < |s.terms| {
      TtyProofs.TerminalOf(s, t);
      TransmitsAt(s, t);
    } else {
      NoTerminal(s, t);
    }
  }

  lemma NoTerminal(s: Kernel, t: int)
    requires !(0 <= t < |s.terms|)
    ensures TrapTransmit(s, t) == s
  {
  }

  lemma TransmitsAt(s: Kernel, t: nat)
    requires PlaceInv(s) && TtyInv(s) && t < |s.terms| && WriterRight(s, t) && StreamRight(s, t)
    ensures Transmits(s, t, TrapTransmit(s, t))
  {
    hide PlaceInv, TtyInv, TrapTransmit, StreamRight, TtyProofs.Launch, TtyProofs.Turnover;
    TtyProofs.TrapTransmitIs(s, t);
    match Term(s, t).writer {
      case None =>
      case Some(w) =>
        WriterThere(s, t, w);
        if s.procs[w].io.writeOffset < |s.procs[w].io.writeBuf| {
          LaunchSends(s, t, w);
        } else {
          TtyProofs.TurnoverIs(s, t, w);
          TurnoverSends(s, t, w);
        }
    }
  }

  lemma WriterThere(s: Kernel, t: nat, w: Pid)
    requires PlaceInv(s) && Term(s, t).writer == Some(w)
    ensures w in s.procs && w != s.idle && w !in s.ready && s.procs[w].state.Blocked?
  {
    hide QueuesAgree, Unique;
    assert ParksAgree(s, w);
  }

  lemma LaunchSends(s: Kernel, t: nat, w: Pid)
    requires t < |s.terms| && w in s.procs && s.procs[w].io.writeOffset <= |s.procs[w].io.writeBuf|
    ensures TtyProofs.Launch(s, t, w, s.procs[w]) == SendsChunk(s, t, w)
  {
  }

  lemma NextLaunch(s: Kernel, t: nat)
    requires Q(s, WriteQ(t)) != [] && Q(s, WriteQ(t))[0] in s.procs
    requires s.procs[Q(s, WriteQ(t))[0]].io.writeOffset <= |s.procs[Q(s, WriteQ(t))[0]].io.writeBuf|
    ensures var w := Q(s, WriteQ(t))[0];
      TtyProofs.StartNext(s, t) == TtyProofs.Launch(NextWriter(s, t), t, w, NextWriter(s, t).procs[w])
  {
  }

  lemma TurnoverSends(s: Kernel, t: nat, w: Pid)
    requires PlaceInv(s) && t < |s.terms| && Term(s, t).writer == Some(w) && WriterRight(s, t) && StreamRight(s, t)
    requires w in s.procs && w != s.idle && w !in s.ready && s.procs[w].state.Blocked? && s.procs[w].io.writeOffset == |s.procs[w].io.writeBuf|
    ensures Transmits(s, t, TtyProofs.Turnover(s, t, w))
  {
    hide PlaceInv, WriterRight, TtyProofs.Launch;
    var s1, queue := WriteEnded(s, t, w), Q(s, WriteQ(t));
    assert TtyProofs.WriteDone(s, t, w) == s1;
    if queue != [] {
      assert queue[0] in queue;
      QueuedSleeps(s, WriteQ(t), queue[0]);
      LaunchSends(NextWriter(s1, t), t, queue[0]);
      NextLaunch(s1, t);
    }
  }
}
