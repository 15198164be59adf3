/** Terminal reads, writes and traps keep the invariant; everything else leaves the terminals alone. */
module TtyProofs {
  import opened Common
  import opened KernelState
  import opened KernelSteps
  import opened KernelInvariants
  import PlaceProofs
  import opened OperationPlaces
  import LockProofs
  import IpcProofs
  import opened LifeProofs

  // ---------- what leaves a terminal alone ----------

  lemma {:induction false} PendingKept(s: Kernel, s': Kernel, ps: seq<Pid>)
    requires forall p :: p in ps ==> Proc(s', p).io.writeBuf == Proc(s, p).io.writeBuf
    ensures Pending(s', ps) == Pending(s, ps)
  {
    if ps != [] {
      PendingKept(s, s', ps[1..]);
    }
  }

  lemma {:induction false} PendingAppend(s: Kernel, ps: seq<Pid>, p: Pid)
    ensures Pending(s, ps + [p]) == Pending(s, ps) + Proc(s, p).io.writeBuf
  {
    if ps == [] {
      assert ps + [p] == [p];
      assert [p][1..] == [];
    } else {
      PendingAppend(s, ps[1..], p);
      assert (ps + [p])[1..] == ps[1..] + [p];
    }
  }

  predicate SameTtyPcb(a: Pcb, b: Pcb) {
    b.io == a.io && b.ttyId == a.ttyId && b.cont == a.cont && b.blockQueue == a.blockQueue
  }

  /** Everything that terminal t looks at is the same in s' as in s. */
  ghost predicate SameTerminal(s: Kernel, s': Kernel, t: nat) {
    && Term(s', t) == Term(s, t)
    && Q(s', ReadQ(t)) == Q(s, ReadQ(t)) && Q(s', WriteQ(t)) == Q(s, WriteQ(t))
    && (forall p :: p in Q(s, ReadQ(t)) || p in Q(s, WriteQ(t)) || Term(s, t).writer == Some(p) ==>
          SameTtyPcb(Proc(s, p), Proc(s', p)))
  }

  lemma TerminalKept(s: Kernel, s': Kernel, t: nat)
    requires WriterRight(s, t) && StreamRight(s, t) && InputRight(s, t) && SameTerminal(s, s', t)
    ensures WriterRight(s', t) && StreamRight(s', t) && InputRight(s', t)
  {
    hide Flatten;
    PendingKept(s, s', Q(s, WriteQ(t)));
  }

  lemma SameTtyTerminal(s: Kernel, s': Kernel, t: nat)
    requires WriterRight(s, t) && StreamRight(s, t) && InputRight(s, t) && SameTty(s, s')
    ensures SameTerminal(s, s', t)
  {
    hide Flatten, Pending;
    assert Term(s', t) == Term(s, t);
    forall p | p in Q(s, ReadQ(t)) || p in Q(s, WriteQ(t)) || Term(s, t).writer == Some(p)
      ensures SameTtyPcb(Proc(s, p), Proc(s', p))
    {
      assert TtyCont(Proc(s, p).cont);
      assert SameTtyPart(Proc(s, p), Proc(s', p));
    }
  }

  /** Steps that touch no terminal keep the terminals' invariant. */
  lemma TtyKept(s: Kernel, s': Kernel)
    requires TtyInv(s) && SameTty(s, s')
    ensures TtyInv(s')
  {
    hide WriterRight, StreamRight, InputRight, SameTerminal, SameTtyPart;
    forall t: nat | t < |s'.terms| ensures WriterRight(s', t) && StreamRight(s', t) && InputRight(s', t) {
      SameTtyTerminal(s, s', t);
      TerminalKept(s, s', t);
    }
    forall p | p in s'.procs ensures ConsoleRight(s'.procs[p], |s'.terms|) {
      if TtyCont(s'.procs[p].cont) {
        SamePartOf(s, s', p);
      }
    }
  }

  lemma SamePartOf(s: Kernel, s': Kernel, p: Pid)
    requires SameTty(s, s') && TtyCont(Proc(s', p).cont)
    ensures SameTtyPcb(Proc(s, p), Proc(s', p)) && (p in s'.procs ==> p in s.procs)
  {
    assert SameTtyPart(Proc(s, p), Proc(s', p));
  }

  /** A step at terminal t leaves the other terminals alone. */
  lemma OneTerminal(s: Kernel, s': Kernel, t: nat)
    requires TtyInv(s) && t < |s.terms| && |s'.terms| == |s.terms|
    requires forall u: nat :: u < |s.terms| && u != t ==> SameTerminal(s, s', u)
    requires forall u: nat :: u >= |s.terms| ==> Q(s', ReadQ(u)) == Q(s, ReadQ(u)) && Q(s', WriteQ(u)) == Q(s, WriteQ(u))
    requires WriterRight(s', t) && StreamRight(s', t) && InputRight(s', t)
    requires forall p :: p in s'.procs ==> ConsoleRight(s'.procs[p], |s'.terms|)
    ensures TtyInv(s')
  {
    hide WriterRight, StreamRight, InputRight, SameTerminal;
    forall u: nat | u < |s'.terms| ensures WriterRight(s', u) && StreamRight(s', u) && InputRight(s', u) {
      if u != t {
        TerminalKept(s, s', u);
      }
    }
  }

  // ---------- one TtyTransmit ----------

  function ChunkEnd(io: Io): nat
    requires io.writeOffset <= |io.writeBuf|
  {
    Min(io.writeOffset + TERMINAL_MAX_LINE, |io.writeBuf|)
  }

  function ChunkOf(io: Io): seq<Byte>
    requires io.writeOffset <= |io.writeBuf|
  {
    io.writeBuf[io.writeOffset..ChunkEnd(io)]
  }

  function AfterChunk(io: Io): Io
    requires io.writeOffset <= |io.writeBuf|
  {
    io.(writeOffset := ChunkEnd(io), writeChunks := io.writeChunks + 1)
  }

  /** The next chunk of pcb's write, pcb being process w, goes to terminal t. */
  function Launch(s: Kernel, t: nat, w: Pid, pcb: Pcb): Kernel
    requires pcb.io.writeOffset <= |pcb.io.writeBuf|
  {
    SetTerm(SetProc(s, w, pcb.(io := AfterChunk(pcb.io))), t,
            Term(s, t).(writer := Some(w), busy := true, sent := Term(s, t).sent + [ChunkOf(pcb.io)]))
  }

  lemma TransmitIs(s: Kernel, t: nat, w: Pid)
    requires t < |s.terms| && Term(s, t).writer == Some(w) && Proc(s, w).io.writeOffset < |Proc(s, w).io.writeBuf|
    ensures Transmit(s, t) == Launch(s, t, w, Proc(s, w))
    ensures !Term(s, t).busy ==> StartWrite(s, t) == Launch(s, t, w, Proc(s, w))
  {
  }

  /** Terminal t starts on the first queued write. */
  function StartNext(s: Kernel, t: nat): Kernel
    requires Q(s, WriteQ(t)) != []
  {
    var v := Q(s, WriteQ(t))[0];
    var pcb := Proc(s, v).(blockQueue := None);
    var s1 := SetQ(s, WriteQ(t), Q(s, WriteQ(t))[1..]);
    if pcb.io.writeOffset <= |pcb.io.writeBuf| then Launch(s1, t, v, pcb) else s1
  }

  lemma StartWriteIs(s: Kernel, t: nat)
    requires t < |s.terms| && Term(s, t).writer.None? && !Term(s, t).busy
    requires Q(s, WriteQ(t)) != [] ==> FreshWrite(Proc(s, Q(s, WriteQ(t))[0]), t) && Q(s, WriteQ(t))[0] in s.procs
    ensures StartWrite(s, t) == if Q(s, WriteQ(t)) == [] then s else StartNext(s, t)
  {
    if Q(s, WriteQ(t)) != [] {
      var v := Q(s, WriteQ(t))[0];
      var s1 := SetQ(s, WriteQ(t), Q(s, WriteQ(t))[1..]);
      var s2 := SetTerm(s1, t, Term(s, t).(writer := Some(v)));
      var s3 := SetProc(s2, v, Proc(s2, v).(blockQueue := None));
      assert StartWrite(s, t) == Transmit(s3, t);
      hide StartWrite;
      assert s3.procs[v] == Proc(s, v).(blockQueue := None);
      assert Transmit(s3, t) == Launch(s3, t, v, s3.procs[v]) by { TransmitIs(s3, t, v); }
      hide Transmit;
      var s' := StartNext(s, t);
      assert s'.terms == Launch(s3, t, v, s3.procs[v]).terms;
      assert s'.procs == Launch(s3, t, v, s3.procs[v]).procs;
    }
  }

  lemma ChunkArith(k: nat, len: nat, off: nat)
    requires off < len && off == Min(k * TERMINAL_MAX_LINE, len)
    ensures off == k * TERMINAL_MAX_LINE
    ensures Min(off + TERMINAL_MAX_LINE, len) == Min((k + 1) * TERMINAL_MAX_LINE, len)
    ensures (k + 1) * TERMINAL_MAX_LINE == k * TERMINAL_MAX_LINE + TERMINAL_MAX_LINE
  {
  }

  lemma LaunchWriter(s: Kernel, t: nat, w: Pid, pcb: Pcb)
    requires t < |s.terms| && pcb.cont.InTtyWrite? && pcb.blockQueue.None?
    requires pcb.io.writeOffset < |pcb.io.writeBuf|
    requires pcb.io.writeOffset == Min(pcb.io.writeChunks * TERMINAL_MAX_LINE, |pcb.io.writeBuf|)
    ensures WriterRight(Launch(s, t, w, pcb), t)
  {
    ChunkArith(pcb.io.writeChunks, |pcb.io.writeBuf|, pcb.io.writeOffset);
  }

  lemma LaunchStream(s: Kernel, t: nat, w: Pid, pcb: Pcb)
    requires t < |s.terms| && pcb.io.writeOffset < |pcb.io.writeBuf| && w !in Q(s, WriteQ(t))
    requires forall p :: p in Q(s, WriteQ(t)) ==> FreshWrite(Proc(s, p), t)
    requires forall k :: 0 <= k < |Term(s, t).sent| ==> 1 <= |Term(s, t).sent[k]| <= TERMINAL_MAX_LINE
    requires Flatten(Term(s, t).sent) + pcb.io.writeBuf[pcb.io.writeOffset..] + Pending(s, Q(s, WriteQ(t))) == Term(s, t).accepted
    ensures StreamRight(Launch(s, t, w, pcb), t)
  {
    hide Flatten, Pending, Launch, ChunkOf, FreshWrite;
    var s' := Launch(s, t, w, pcb);
    LaunchFields(s, t, w, pcb);
    PendingKept(s, s', Q(s, WriteQ(t)));
    SentChunk(Term(s, t).sent, ChunkOf(pcb.io), pcb.io.writeBuf[ChunkEnd(pcb.io)..], Pending(s, Q(s, WriteQ(t))));
  }

  lemma LaunchFields(s: Kernel, t: nat, w: Pid, pcb: Pcb)
    requires t < |s.terms| && pcb.io.writeOffset < |pcb.io.writeBuf| && w !in Q(s, WriteQ(t))
    ensures var s', io := Launch(s, t, w, pcb), pcb.io;
      && Q(s', WriteQ(t)) == Q(s, WriteQ(t)) && (forall p :: p in Q(s, WriteQ(t)) ==> Proc(s', p) == Proc(s, p))
      && Term(s', t).sent == Term(s, t).sent + [ChunkOf(io)] && Term(s', t).accepted == Term(s, t).accepted
      && Rest(s', t) == io.writeBuf[ChunkEnd(io)..]
      && io.writeBuf[io.writeOffset..] == ChunkOf(io) + io.writeBuf[ChunkEnd(io)..] && 1 <= |ChunkOf(io)| <= TERMINAL_MAX_LINE
  {
  }

  /** A chunk goes from what is in flight to what was sent. */
  lemma SentChunk(sent: seq<seq<Byte>>, chunk: seq<Byte>, rest: seq<Byte>, pending: seq<Byte>)
    ensures Flatten(sent) + (chunk + rest) + pending == Flatten(sent + [chunk]) + rest + pending
  {
    FlattenAppend(sent, chunk);
    hide Flatten;
    assert Flatten(sent) + (chunk + rest) == (Flatten(sent) + chunk) + rest;
  }

  // ---------- where the processes are ----------

  /** Process v leaves the write queue of terminal t, where it was first, to be its writer. */
  lemma StartNextParks(s: Kernel, t: nat, s': Kernel)
    requires QueuesAgree(s) && WritersAgree(s) && Q(s, WriteQ(t)) != [] && t < |s.terms| && Term(s, t).writer.None?
    requires FreshWrite(Proc(s, Q(s, WriteQ(t))[0]), t) && s' == StartNext(s, t)
    ensures QueuesAgree(s') && WritersAgree(s')
    ensures forall p :: p in s.procs ==> Parks(s', p) == Parks(s, p)
  {
    var q := WriteQ(t);
    var v := Q(s, q)[0];
    var pcb := Proc(s, v).(blockQueue := None);
    PlaceProofs.PoppedQueues(s, q, pcb.(io := AfterChunk(pcb.io)));
    var s1 := SetProc(SetQ(s, q, Q(s, q)[1..]), v, pcb.(io := AfterChunk(pcb.io)));
    hide QueuesAgree, Unique, AfterChunk, ChunkOf;
    assert QueuesAgree(s') by { QueuesOnly(s1, s'); }
    assert forall u: nat :: Term(s', u).writer == if u == t then Some(v) else Term(s, u).writer;
  }

  lemma QueuesOnly(s: Kernel, s': Kernel)
    requires QueuesAgree(s) && s'.procs == s.procs && s'.queues == s.queues
    ensures QueuesAgree(s')
  {
    assert forall q :: Q(s', q) == Q(s, q);
  }

  lemma ParksMoved(s: Kernel, s': Kernel)
    requires PlaceBase(s) && QueuesAgree(s') && WritersAgree(s') && s'.procs.Keys == s.procs.Keys
    requires s'.ready == s.ready && s'.current == s.current && s'.idle == s.idle && s'.clock == s.clock && s'.init == s.init
    requires forall p :: p in s.procs ==> Parks(s', p) == Parks(s, p) && s'.procs[p].state == s.procs[p].state
    ensures PlaceBase(s') && Forward(s, s')
  {
    hide QueuesAgree, WritersAgree, Parks;
    forall p | p in s'.procs ensures ParksAgree(s', p) {
      assert ParksAgree(s, p);
    }
  }

  lemma StartNextFields(s: Kernel, t: nat, s': Kernel)
    requires Q(s, WriteQ(t)) != [] && s' == StartNext(s, t) && Q(s, WriteQ(t))[0] in s.procs
    requires FreshWrite(Proc(s, Q(s, WriteQ(t))[0]), t)
    ensures s' == s.(procs := s'.procs, queues := s'.queues, terms := s'.terms)
    ensures s'.procs.Keys == s.procs.Keys && |s'.terms| == |s.terms|
    ensures var v := Q(s, WriteQ(t))[0];
      && (forall p :: p in s.procs && p != v ==> s'.procs[p] == s.procs[p])
      && s'.procs[v] == s.procs[v].(blockQueue := None, io := AfterChunk(s.procs[v].io))
    ensures forall q :: Q(s', q) == if q == WriteQ(t) then Q(s, q)[1..] else Q(s, q)
    ensures forall u :: u != t ==> Term(s', u) == Term(s, u)
  {
    hide AfterChunk, ChunkOf;
  }

  lemma StartNextPlaces(s: Kernel, t: nat)
    requires PlaceBase(s) && Q(s, WriteQ(t)) != [] && t < |s.terms| && Term(s, t).writer.None?
    requires FreshWrite(Proc(s, Q(s, WriteQ(t))[0]), t)
    ensures PlaceBase(StartNext(s, t)) && Forward(s, StartNext(s, t))
  {
    hide QueuesAgree, WritersAgree, ReadyAgrees, RunningAgrees, ParksAgree, Parks, StartNext;
    PlaceProofs.QueueMembers(s, WriteQ(t));
    assert Q(s, WriteQ(t))[0] in Q(s, WriteQ(t));
    StartNextParks(s, t, StartNext(s, t));
    StartNextFields(s, t, StartNext(s, t));
    ParksMoved(s, StartNext(s, t));
  }

  lemma StartNextTty(s: Kernel, t: nat)
    requires WritersAgree(s) && t < |s.terms| && Term(s, t).writer.None? && StreamRight(s, t) && Q(s, WriteQ(t)) != []
    requires Unique(Q(s, WriteQ(t)))
    ensures WriterRight(StartNext(s, t), t) && StreamRight(StartNext(s, t), t)
  {
    hide Flatten;
    var q := WriteQ(t);
    var v := Q(s, q)[0];
    UniqueTail(Q(s, q));
    var s1 := SetQ(s, q, Q(s, q)[1..]);
    var pcb := Proc(s, v).(blockQueue := None);
    LaunchWriter(s1, t, v, pcb);
    PendingKept(s, s1, Q(s, q)[1..]);
    assert pcb.io.writeBuf[pcb.io.writeOffset..] == pcb.io.writeBuf;
    assert Flatten(Term(s, t).sent) + [] + (pcb.io.writeBuf + Pending(s, Q(s, q)[1..]))
        == Flatten(Term(s, t).sent) + pcb.io.writeBuf + Pending(s, Q(s, q)[1..]);
    LaunchStream(s1, t, v, pcb);
  }

  // ---------- the transmit trap ----------

  /** The state of the whole machine but for the terminals. */
  ghost predicate WholeTty(s: Kernel) {
    Whole(s) && TtyInv(s)
  }

  ghost predicate TtyStep(s': Kernel) {
    LockInv(s') && PipeInv(s') && FamilyInv(s') && TtyInv(s')
  }

  /** The trap for the last chunk of w's write: w is ready again and the terminal has no writer. */
  function WriteDone(s: Kernel, t: nat, w: Pid): Kernel {
    var pcb := Proc(s, w);
    SetTerm(s, t, Term(s, t).(busy := false, writer := None)).(
      procs := s.procs[w := pcb.Returning(|pcb.io.writeBuf|).(state := Ready)], ready := s.ready + [w])
  }

  lemma TrapTransmitIs(s: Kernel, t: nat)
    requires t < |s.terms| && WriterRight(s, t)
    ensures Term(s, t).writer.None? ==> TrapTransmit(s, t) == s
    ensures Term(s, t).writer.Some? ==>
      var w := Term(s, t).writer.value;
      var io := Proc(s, w).io;
      if io.writeOffset < |io.writeBuf| then TrapTransmit(s, t) == Launch(s, t, w, Proc(s, w))
      else w in s.procs && w != s.idle && w !in s.ready && !s.procs[w].state.Zombie? ==>
             TrapTransmit(s, t) == StartWrite(WriteDone(s, t, w), t)
  {
    var s1 := SetTerm(s, t, Term(s, t).(busy := false));
    hide StartWrite;
    match Term(s, t).writer
    case None =>
      assert s1.terms == s.terms;
      assert StartWrite(s, t) == s by { NothingToWrite(s, t); }
    case Some(w) =>
      var pcb := Proc(s, w);
      if pcb.io.writeOffset < |pcb.io.writeBuf| {
        TransmitIs(s1, t, w);
        assert Launch(s1, t, w, pcb).terms == Launch(s, t, w, pcb).terms;
      } else if w in s.procs && w != s.idle && w !in s.ready && !s.procs[w].state.Zombie? {
        var s2 := SetTerm(s1, t, Term(s1, t).(writer := None));
        assert s2.terms == WriteDone(s, t, w).terms;
        assert MakeReady(s2, w, pcb.Returning(|pcb.io.writeBuf|)) == WriteDone(s, t, w);
      }
  }

  lemma NothingToWrite(s: Kernel, t: nat)
    requires t < |s.terms| && Term(s, t).writer.None? && Q(s, WriteQ(t)) == []
    ensures StartWrite(s, t) == s
  {
  }

  lemma WriterParked(s: Kernel, t: nat, w: Pid)
    requires PlaceInv(s) && Term(s, t).writer == Some(w) && t < |s.terms|
    ensures w in s.procs && s.procs[w].ttyId == t && s.procs[w].state.Blocked? && s.procs[w].blockQueue.None?
    ensures w != s.current && w != s.idle && w !in s.ready && (forall q :: w !in Q(s, q))
    ensures s.procs[w].delayUntil == 0 && !s.procs[w].waitingForChild
  {
    assert IsWriter(s, w);
    assert ParksAgree(s, w);
  }

  lemma LaunchStill(s: Kernel, t: nat, w: Pid)
    requires t < |s.terms| && Term(s, t).writer == Some(w) && w in s.procs && s.procs[w].io.writeOffset < |s.procs[w].io.writeBuf|
    ensures var s' := Launch(s, t, w, s.procs[w]);
      && Still(s, s') && LockProofs.SameLocks(s, s') && SameFamily(s, s') && s'.objects == s.objects
      && |s'.terms| == |s.terms| && (forall u :: u != t ==> Term(s', u) == Term(s, u)) && (forall q :: Q(s', q) == Q(s, q))
      && (forall p :: p != w ==> Proc(s', p) == Proc(s, p)) && s'.procs.Keys == s.procs.Keys
      && s'.procs[w] == s.procs[w].(io := AfterChunk(s.procs[w].io)) && Term(s', t).inputQueue == Term(s, t).inputQueue
  {
    hide AfterChunk, ChunkOf;
  }

  lemma InputStays(s: Kernel, s': Kernel, t: nat)
    requires InputRight(s, t) && Q(s', ReadQ(t)) == Q(s, ReadQ(t)) && Term(s', t).inputQueue == Term(s, t).inputQueue
    requires forall p :: p in Q(s, ReadQ(t)) ==>
      Proc(s', p).cont == Proc(s, p).cont && Proc(s', p).ttyId == Proc(s, p).ttyId && Proc(s', p).io.readLine == Proc(s, p).io.readLine
    ensures InputRight(s', t)
  {
  }

  /** Process p is at no terminal. */
  ghost predicate Apart(s: Kernel, p: Pid) {
    forall u: nat :: p !in Q(s, ReadQ(u)) && p !in Q(s, WriteQ(u)) && Term(s, u).writer != Some(p)
  }

  /** s' comes from s by a step at terminal t that changes, of the processes, only those in changed. */
  ghost predicate OnlyAt(s: Kernel, s': Kernel, t: nat, changed: set<Pid>) {
    && |s'.terms| == |s.terms| && t < |s.terms|
    && (forall u :: u != t ==> Term(s', u) == Term(s, u))
    && (forall u: nat :: u != t ==> Q(s', ReadQ(u)) == Q(s, ReadQ(u)) && Q(s', WriteQ(u)) == Q(s, WriteQ(u)))
    && (forall p :: p !in changed ==> SameTtyPcb(Proc(s, p), Proc(s', p)))
    && (forall p :: p in changed ==> Proc(s, p).ttyId == t || Apart(s, p))
    && s'.procs.Keys == s.procs.Keys
  }

  lemma OnlyAtElsewhere(s: Kernel, s': Kernel, t: nat, changed: set<Pid>, u: nat)
    requires WritersAgree(s) && StreamRight(s, u) && InputRight(s, u) && OnlyAt(s, s', t, changed) && u != t
    ensures SameTerminal(s, s', u)
  {
    hide Flatten, Pending, Rest, SameTtyPcb;
    assert Term(s', u) == Term(s, u);
  }

  lemma TtyAt(s: Kernel, s': Kernel, t: nat, changed: set<Pid>)
    requires TtyInv(s) && WritersAgree(s) && OnlyAt(s, s', t, changed)
    requires forall p :: p in changed && p in s'.procs ==> ConsoleRight(s'.procs[p], |s'.terms|)
    requires WriterRight(s', t) && StreamRight(s', t) && InputRight(s', t)
    ensures TtyInv(s')
  {
    hide WritersAgree, WriterRight, StreamRight, InputRight, SameTerminal, Apart;
    forall u: nat | u < |s.terms| && u != t ensures SameTerminal(s, s', u) {
      OnlyAtElsewhere(s, s', t, changed, u);
    }
    forall p | p in s'.procs ensures ConsoleRight(s'.procs[p], |s'.terms|) {
      if p !in changed {
        assert SameTtyPcb(Proc(s, p), Proc(s', p));
        assert ConsoleRight(s.procs[p], |s.terms|);
      }
    }
    OneTerminal(s, s', t);
  }

  lemma ChunkRight(s: Kernel, t: nat, w: Pid)
    requires t < |s.terms| && WriterRight(s, t) && StreamRight(s, t) && Term(s, t).writer == Some(w)
    requires w !in Q(s, WriteQ(t)) && Proc(s, w).io.writeOffset < |Proc(s, w).io.writeBuf|
    ensures WriterRight(Launch(s, t, w, Proc(s, w)), t) && StreamRight(Launch(s, t, w, Proc(s, w)), t)
  {
    hide Flatten, Pending, Launch;
    assert Rest(s, t) == Proc(s, w).io.writeBuf[Proc(s, w).io.writeOffset..];
    LaunchWriter(s, t, w, Proc(s, w));
    LaunchStream(s, t, w, Proc(s, w));
  }

  lemma TerminalOf(s: Kernel, t: nat)
    requires TtyInv(s) && t < |s.terms|
    ensures WriterRight(s, t) && StreamRight(s, t) && InputRight(s, t)
  {
  }

  lemma PlacePartsOf(s: Kernel)
    requires PlaceInv(s)
    ensures QueuesAgree(s) && WritersAgree(s) && PlaceBase(s)
  {
  }

  lemma ChunkOnlyAt(s: Kernel, t: nat, w: Pid)
    requires t < |s.terms| && Term(s, t).writer == Some(w) && w in s.procs && s.procs[w].ttyId == t
    requires s.procs[w].io.writeOffset < |s.procs[w].io.writeBuf|
    ensures OnlyAt(s, Launch(s, t, w, s.procs[w]), t, {w})
  {
    hide Apart, Launch;
    LaunchStill(s, t, w);
  }

  lemma ChunkTty(s: Kernel, t: nat, w: Pid)
    requires TtyInv(s) && PlaceInv(s) && t < |s.terms| && Term(s, t).writer == Some(w)
    requires Proc(s, w).io.writeOffset < |Proc(s, w).io.writeBuf|
    ensures TtyInv(Launch(s, t, w, Proc(s, w)))
  {
    hide PlaceInv, WritersAgree, WriterRight, StreamRight, TtyInv, Launch, OnlyAt;
    WriterParked(s, t, w);
    PlacePartsOf(s);
    TerminalOf(s, t);
    assert Proc(s, w).cont.InTtyWrite? by { WriterCont(s, t, w); }
    var s' := Launch(s, t, w, s.procs[w]);
    LaunchStill(s, t, w);
    ChunkOnlyAt(s, t, w);
    ChunkRight(s, t, w);
    WriterIsNoReader(s, s', t, w);
    InputStays(s, s', t);
    hide InputRight;
    TtyAt(s, s', t, {w});
  }

  lemma WriterCont(s: Kernel, t: nat, w: Pid)
    requires WriterRight(s, t) && Term(s, t).writer == Some(w)
    ensures Proc(s, w).cont.InTtyWrite?
  {
  }

  lemma WriterIsNoReader(s: Kernel, s': Kernel, t: nat, w: Pid)
    requires (forall q :: w !in Q(s, q)) && forall p :: p != w ==> Proc(s', p) == Proc(s, p)
    ensures forall p :: p in Q(s, ReadQ(t)) ==> Proc(s', p) == Proc(s, p)
  {
  }

  // ---------- the end of a write ----------

  lemma WriteDoneParks(s: Kernel, t: nat, w: Pid)
    requires PlaceInv(s) && t < |s.terms| && Term(s, t).writer == Some(w)
    ensures var s2 := SetTerm(s, t, Term(s, t).(busy := false, writer := None));
      var pcb := Proc(s, w).Returning(|Proc(s, w).io.writeBuf|);
      var s1 := SetProc(s2, w, pcb);
      && QueuesAgree(s1) && WritersAgree(s1) && Parks(s1, w) == 0
      && (forall x :: x in s.procs && x != w ==> Parks(s1, x) == Parks(s, x))
  {
    hide ReadyAgrees, RunningAgrees, ParksAgree, Unique, DelaysAhead;
    WriterParked(s, t, w);
    var s2 := SetTerm(s, t, Term(s, t).(busy := false, writer := None));
    var s1 := SetProc(s2, w, Proc(s, w).Returning(|Proc(s, w).io.writeBuf|));
    assert forall q :: Q(s1, q) == Q(s, q);
    assert forall u: nat :: Term(s1, u).writer == if u == t then None else Term(s, u).writer;
  }

  lemma WriteDonePlaces(s: Kernel, t: nat, w: Pid)
    requires PlaceInv(s) && t < |s.terms| && Term(s, t).writer == Some(w)
    ensures var s' := WriteDone(s, t, w); PlaceBase(s') && Forward(s, s')
  {
    hide PlaceInv, PlaceBase, QueuesAgree, WritersAgree, Parks, Forward, MakeReady;
    WriterParked(s, t, w);
    PlacePartsOf(s);
    WriteDoneParks(s, t, w);
    var s2 := SetTerm(s, t, Term(s, t).(busy := false, writer := None));
    PlaceProofs.MakeReadyPlaces(s, s2, w, Proc(s, w).Returning(|Proc(s, w).io.writeBuf|));
    WokenForward(s, WriteDone(s, t, w), [w]);
  }

  lemma WriteDoneFields(s: Kernel, t: nat, w: Pid)
    requires t < |s.terms| && w in s.procs && s.procs[w].state.Blocked?
    ensures var s' := WriteDone(s, t, w);
      && LockProofs.SameLocks(s, s') && SameFamily(s, s') && s'.objects == s.objects && s'.current == s.current && s'.idle == s.idle
      && |s'.terms| == |s.terms| && (forall u :: u != t ==> Term(s', u) == Term(s, u)) && (forall q :: Q(s', q) == Q(s, q))
      && Term(s', t) == Term(s, t).(busy := false, writer := None)
      && s'.procs.Keys == s.procs.Keys && (forall p :: p != w ==> Proc(s', p) == Proc(s, p))
      && s'.procs[w] == s.procs[w].Returning(|s.procs[w].io.writeBuf|).(state := Ready)
  {
  }

  /** With the write over, the stream is the sent bytes and the queued writes. */
  lemma WriteDoneStream(s: Kernel, t: nat, w: Pid)
    requires t < |s.terms| && w in s.procs && WriterRight(s, t) && StreamRight(s, t) && Term(s, t).writer == Some(w)
    requires s.procs[w].io.writeOffset >= |s.procs[w].io.writeBuf| && w !in Q(s, WriteQ(t))
    ensures StreamRight(WriteDone(s, t, w), t)
  {
    hide Flatten;
    assert Rest(s, t) == [];
    PendingKept(s, WriteDone(s, t, w), Q(s, WriteQ(t)));
  }

  lemma WriteDoneOnlyAt(s: Kernel, t: nat, w: Pid)
    requires t < |s.terms| && w in s.procs && s.procs[w].state.Blocked? && s.procs[w].ttyId == t
    ensures OnlyAt(s, WriteDone(s, t, w), t, {w})
  {
    hide Apart, WriteDone;
    WriteDoneFields(s, t, w);
  }

  lemma StartNextOnlyAt(s: Kernel, t: nat)
    requires t < |s.terms| && Q(s, WriteQ(t)) != [] && Q(s, WriteQ(t))[0] in s.procs
    requires FreshWrite(Proc(s, Q(s, WriteQ(t))[0]), t)
    ensures OnlyAt(s, StartNext(s, t), t, {Q(s, WriteQ(t))[0]})
  {
    hide Apart, StartNext;
    StartNextFields(s, t, StartNext(s, t));
  }

  lemma OnlyAtTrans(s: Kernel, s1: Kernel, s2: Kernel, t: nat, a: set<Pid>, b: set<Pid>)
    requires OnlyAt(s, s1, t, a) && OnlyAt(s1, s2, t, b)
    requires forall p :: p in b ==> Proc(s, p).ttyId == t
    ensures OnlyAt(s, s2, t, a + b)
  {
    hide Apart;
  }

  lemma StartNextInput(s: Kernel, t: nat)
    requires t < |s.terms| && Q(s, WriteQ(t)) != []
    ensures Term(StartNext(s, t), t).inputQueue == Term(s, t).inputQueue
    ensures Q(StartNext(s, t), ReadQ(t)) == Q(s, ReadQ(t))
  {
  }

  /** The last trap of w's write, and the start of the next write if one is queued. */
  function Turnover(s: Kernel, t: nat, w: Pid): Kernel {
    var s1 := WriteDone(s, t, w);
    if Q(s, WriteQ(t)) == [] then s1 else StartNext(s1, t)
  }

  lemma TurnoverIs(s: Kernel, t: nat, w: Pid)
    requires TtyInv(s) && PlaceInv(s) && t < |s.terms| && Term(s, t).writer == Some(w)
    requires Proc(s, w).io.writeOffset >= |Proc(s, w).io.writeBuf|
    ensures TrapTransmit(s, t) == Turnover(s, t, w)
    ensures var s1 := WriteDone(s, t, w);
      && PlaceBase(s1) && Forward(s, s1) && StreamRight(s1, t) && OnlyAt(s, s1, t, {w})
      && Term(s1, t) == Term(s, t).(busy := false, writer := None) && |s1.terms| == |s.terms|
      && (forall q :: Q(s1, q) == Q(s, q))
      && w in s.procs && s1 == s.(procs := s1.procs, ready := s1.ready, terms := s1.terms)
      && s1.procs == s.procs[w := s.procs[w].Returning(|s.procs[w].io.writeBuf|).(state := Ready)]
  {
    hide PlaceInv, PlaceBase, TtyInv, WriterRight, StreamRight, Forward, OnlyAt, StartWrite, StartNext, TrapTransmit;
    WriterParked(s, t, w);
    TerminalOf(s, t);
    TrapTransmitIs(s, t);
    WriteDonePlaces(s, t, w);
    WriteDoneFields(s, t, w);
    WriteDoneStream(s, t, w);
    WriteDoneOnlyAt(s, t, w);
    var s1 := WriteDone(s, t, w);
    StreamFresh(s1, t);
    MembersLive(s1, WriteQ(t));
    StartWriteIs(s1, t);
  }

  lemma MembersLive(s: Kernel, q: QueueId)
    requires PlaceBase(s)
    ensures forall p :: p in Q(s, q) ==> p in s.procs
    ensures Unique(Q(s, q))
  {
  }

  lemma StreamFresh(s: Kernel, t: nat)
    requires StreamRight(s, t)
    ensures forall p :: p in Q(s, WriteQ(t)) ==> FreshWrite(Proc(s, p), t)
  {
  }

  /** A process at a terminal leaves its queue; locks do not notice. */
  predicate SameLockPartTty(a: Pcb, b: Pcb) {
    && b.cont == a.cont && b.user.held == a.user.held && (b.state.Zombie? <==> a.state.Zombie?)
    && (b.blockQueue == a.blockQueue || (TtyCont(a.cont) && b.blockQueue.None?))
  }

  lemma LocksKeptTty(s: Kernel, s': Kernel)
    requires LockInv(s) && s'.objects == s.objects && s'.idle == s.idle && s'.procs.Keys == s.procs.Keys
    requires forall p :: p in s.procs ==> SameLockPartTty(s.procs[p], s'.procs[p])
    ensures LockInv(s')
  {
    assert forall i: int :: Obj(s', i) == Obj(s, i);
  }

  /** A step that moves only processes at terminals, and neither kin nor objects. */
  ghost predicate TtyOnly(s: Kernel, s': Kernel) {
    && s'.objects == s.objects && s'.idle == s.idle && SameFamily(s, s')
    && (forall p :: p in s.procs ==> SameLockPartTty(s.procs[p], s'.procs[p]))
  }

  lemma TtyOnlyKept(s: Kernel, s': Kernel)
    requires Whole(s) && TtyOnly(s, s')
    ensures LockInv(s') && PipeInv(s') && FamilyInv(s')
  {
    hide LockInv, PipeInv, FamilyInv, PlaceInv, SameFamily, SameLockPartTty;
    KeysOf(s, s');
    LocksKeptTty(s, s');
    IpcProofs.PipesKept(s, s');
    FamilyKept(s, s');
  }

  lemma KeysOf(s: Kernel, s': Kernel)
    requires SameFamily(s, s')
    ensures s'.procs.Keys == s.procs.Keys
  {
  }

  lemma TurnoverOnly(s: Kernel, t: nat, w: Pid)
    requires w in s.procs && s.procs[w].state.Blocked? && t < |s.terms|
    requires var s1 := WriteDone(s, t, w);
      && (forall p :: p in Q(s, WriteQ(t)) ==> p in s.procs && p != w && FreshWrite(s.procs[p], t))
      && s1.procs == s.procs[w := s.procs[w].Returning(|s.procs[w].io.writeBuf|).(state := Ready)]
      && (forall q :: Q(s1, q) == Q(s, q)) && s1 == s.(procs := s1.procs, ready := s1.ready, terms := s1.terms)
    ensures TtyOnly(s, Turnover(s, t, w))
    ensures Turnover(s, t, w).ready == WriteDone(s, t, w).ready && Turnover(s, t, w).current == s.current
    ensures forall p :: p in s.procs ==> Turnover(s, t, w).procs[p].delayUntil == s.procs[p].delayUntil
    ensures forall p :: p in s.procs && p != w ==> Turnover(s, t, w).procs[p].state == s.procs[p].state
  {
    hide WriteDone, StartNext, Launch;
    var s1 := WriteDone(s, t, w);
    if Q(s, WriteQ(t)) != [] {
      assert Q(s, WriteQ(t))[0] in Q(s, WriteQ(t));
      StartNextFields(s1, t, StartNext(s1, t));
    }
  }

  lemma QueuedAtTerminal(s: Kernel, t: nat, w: Pid)
    requires PlaceBase(s) && StreamRight(s, t) && forall q :: w !in Q(s, q)
    ensures forall p :: p in Q(s, WriteQ(t)) ==> p in s.procs && p != w && FreshWrite(s.procs[p], t)
  {
    MembersLive(s, WriteQ(t));
  }

  lemma TurnoverTty(s: Kernel, t: nat, w: Pid)
    requires TtyInv(s) && PlaceInv(s) && t < |s.terms| && Term(s, t).writer == Some(w)
    requires Proc(s, w).io.writeOffset >= |Proc(s, w).io.writeBuf|
    ensures TtyInv(Turnover(s, t, w)) && PlaceBase(Turnover(s, t, w)) && Forward(s, Turnover(s, t, w))
  {
    hide PlaceInv, PlaceBase, TtyInv, WritersAgree, WriterRight, StreamRight, InputRight, Forward, OnlyAt, StartNext,
      TrapTransmit, WriteDone;
    WriterParked(s, t, w);
    PlacePartsOf(s);
    TerminalOf(s, t);
    WriterCont(s, t, w);
    TurnoverIs(s, t, w);
    QueuedAtTerminal(s, t, w);
    var s1 := WriteDone(s, t, w);
    WriterIsNoReader(s, s1, t, w);
    InputStays(s, s1, t);
    var s' := Turnover(s, t, w);
    if Q(s, WriteQ(t)) == [] {
      IdleTerminal(s1, t);
      TtyAt(s, s', t, {w});
    } else {
      TurnoverNext(s, s1, t, w);
    }
  }

  lemma IdleTerminal(s: Kernel, t: nat)
    requires Term(s, t).writer.None? && !Term(s, t).busy && Q(s, WriteQ(t)) == []
    ensures WriterRight(s, t)
  {
  }

  lemma TurnoverNext(s: Kernel, s1: Kernel, t: nat, w: Pid)
    requires TtyInv(s) && WritersAgree(s) && t < |s.terms| && w in s.procs
    requires PlaceBase(s1) && Forward(s, s1) && StreamRight(s1, t) && InputRight(s1, t) && OnlyAt(s, s1, t, {w})
    requires Term(s1, t).writer.None? && !Term(s1, t).busy && Q(s1, WriteQ(t)) != [] && |s1.terms| == |s.terms|
    requires s1.procs.Keys == s.procs.Keys && s1.procs[w].cont.InTtyWrite? && s1.procs[w].ttyId == t
    requires forall p :: p in Q(s1, WriteQ(t)) ==> p in s.procs && p != w && FreshWrite(s.procs[p], t) && s1.procs[p] == s.procs[p]
    requires forall q :: w !in Q(s1, q)
    ensures var s' := StartNext(s1, t); TtyInv(s') && PlaceBase(s') && Forward(s, s')
  {
    hide PlaceBase, TtyInv, WritersAgree, WriterRight, StreamRight, InputRight, Forward, OnlyAt, StartNext;
    var v := Q(s1, WriteQ(t))[0];
    HeadIn(Q(s1, WriteQ(t)));
    var s' := StartNext(s1, t);
    MembersLive(s1, WriteQ(t));
    StartNextPlaces(s1, t);
    ForwardTrans(s, s1, s');
    WritersOf(s1);
    StartNextTty(s1, t);
    StartNextInput(s1, t);
    StartNextFields(s1, t, s');
    VReads(s1, t, v);
    InputStays(s1, s', t);
    StartNextOnlyAt(s1, t);
    OnlyAtTrans(s, s1, s', t, {w}, {v});
    TtyAt(s, s', t, {w} + {v});
  }

  lemma WritersOf(s: Kernel)
    requires PlaceBase(s)
    ensures WritersAgree(s)
  {
  }

  /** The first queued writer is in no read queue. */
  lemma VReads(s: Kernel, t: nat, v: Pid)
    requires PlaceBase(s) && v in Q(s, WriteQ(t))
    ensures v !in Q(s, ReadQ(t))
  {
    assert s.procs[v].blockQueue == Some(WriteQ(t));
  }

  lemma LaunchOnly(s: Kernel, t: nat, w: Pid)
    requires t < |s.terms| && Term(s, t).writer == Some(w) && w in s.procs && s.procs[w].io.writeOffset < |s.procs[w].io.writeBuf|
    ensures TtyOnly(s, Launch(s, t, w, s.procs[w])) && Still(s, Launch(s, t, w, s.procs[w]))
  {
    hide AfterChunk, ChunkOf, Still;
    LaunchStill(s, t, w);
  }

  lemma TransmitStep(s: Kernel, t: nat, w: Pid)
    requires WholeTty(s) && t < |s.terms| && Term(s, t).writer == Some(w)
    ensures var s' := TrapTransmit(s, t); Went(s, s', false) && TtyStep(s')
  {
    hide PlaceInv, LockInv, PipeInv, FamilyInv, TtyInv, WriterRight, StreamRight, InputRight, Forward, PlaceBase,
      Launch, Turnover, WriteDone, TtyOnly, Still, TrapTransmit, Whole, Went;
    WholePlaces(s);
    WriterParked(s, t, w);
    PlacePartsOf(s);
    TerminalOf(s, t);
    TrapTransmitIs(s, t);
    var s' := TrapTransmit(s, t);
    if Proc(s, w).io.writeOffset < |Proc(s, w).io.writeBuf| {
      LaunchOnly(s, t, w);
      IpcProofs.StillWent(s, s');
      ChunkTty(s, t, w);
      TtyOnlyKept(s, s');
    } else {
      TurnoverIs(s, t, w);
      TurnoverTty(s, t, w);
      QueuedAtTerminal(s, t, w);
      TurnoverOnly(s, t, w);
      TtyOnlyKept(s, s');
      TurnoverWent(s, s', w);
    }
  }

  lemma WholePlaces(s: Kernel)
    requires Whole(s)
    ensures PlaceInv(s) && LockInv(s) && PipeInv(s) && FamilyInv(s)
  {
  }

  lemma TurnoverWent(s: Kernel, s': Kernel, w: Pid)
    requires PlaceInv(s) && PlaceBase(s') && Forward(s, s') && w != s.current && SameFamily(s, s')
    requires forall p :: p in s.procs ==> s'.procs[p].delayUntil == s.procs[p].delayUntil
    requires forall p :: p in s.procs && p != w ==> s'.procs[p].state == s.procs[p].state
    ensures Went(s, s', false)
  {
    CurrentFree(s);
    hide PlaceInv, PlaceBase, Lost;
    IpcProofs.ForwardWent(s, s');
  }

  lemma TrapTransmitKept(s: Kernel, t: int)
    requires WholeTty(s)
    ensures var s' := TrapTransmit(s, t); Went(s, s', false) && TtyStep(s')
  {
    hide PlaceInv, LockInv, PipeInv, FamilyInv, TtyInv, Went, StartWrite, WriterRight;
    WholePlaces(s);
    WentRefl(s);
    if 0 <= t < |s.terms| {
      match Term(s, t).writer
      case None =>
        TerminalOf(s, t);
        TrapTransmitIs(s, t);
      case Some(w) =>
        TransmitStep(s, t, w);
    }
  }
}
