/** TtyWrite, TtyRead and the receive trap keep the invariant. */
module TtyCallProofs {
  import opened Common
  import opened KernelState
  import opened KernelSteps
  import opened KernelInvariants
  import opened PlaceProofs
  import opened OperationPlaces
  import LockProofs
  import opened IpcProofs
  import opened LifeProofs
  import opened TtyProofs

  // ---------- a step of the current process at terminal t ----------

  lemma CurrentApart(s: Kernel)
    requires PlaceInv(s)
    ensures Apart(s, s.current)
  {
    CurrentFree(s);
    forall u: nat ensures Term(s, u).writer != Some(s.current) {
      assert Term(s, u).writer.Some? ==> IsWriter(s, Term(s, u).writer.value);
    }
  }

  /** s' is s with another PCB for the current process, and other data at terminal t. */
  ghost predicate CurrentAt(s: Kernel, s': Kernel, t: nat) {
    && s' == s.(procs := s.procs[s.current := Cur(s')], terms := s'.terms, queues := s'.queues)
    && s.current in s.procs
    && t < |s.terms| && |s'.terms| == |s.terms| && (forall u :: u != t ==> Term(s', u) == Term(s, u))
    && Cur(s').kin == Cur(s).kin && Cur(s').waitingForChild == Cur(s).waitingForChild
    && !Cur(s).state.Zombie? && !Cur(s').state.Zombie? && Cur(s').user.held == Cur(s).user.held
    && (Cur(s).cont.ToUser? || TtyCont(Cur(s).cont)) && (Cur(s').cont.ToUser? || TtyCont(Cur(s').cont))
    && (Cur(s').blockQueue.Some? ==> !Cur(s').blockQueue.value.ObjectQ?)
    && (s.current == s.idle ==> Cur(s').cont.ToUser?)
  }

  lemma CurrentAtKept(s: Kernel, s': Kernel, t: nat)
    requires Whole(s) && CurrentAt(s, s', t)
    ensures LockInv(s') && PipeInv(s') && FamilyInv(s')
  {
    hide PlaceInv, LockInv, PipeInv, FamilyInv;
    LockProofs.CurrentMovesOn(s, s');
    PipesKept(s, s');
    FamilyKept(s, s');
  }

  lemma CurrentOnlyAt(s: Kernel, s': Kernel, t: nat)
    requires CurrentAt(s, s', t) && Apart(s, s.current)
    requires forall u: nat :: u != t ==> Q(s', ReadQ(u)) == Q(s, ReadQ(u)) && Q(s', WriteQ(u)) == Q(s, WriteQ(u))
    ensures OnlyAt(s, s', t, {s.current})
  {
    hide Apart;
  }

  /** Terminal t's output side is the same in s' as in s. */
  lemma OutputStays(s: Kernel, s': Kernel, t: nat)
    requires WriterRight(s, t) && StreamRight(s, t) && Q(s', WriteQ(t)) == Q(s, WriteQ(t))
    requires Term(s', t) == Term(s, t).(inputQueue := Term(s', t).inputQueue, line := Term(s', t).line)
    requires forall p :: p in Q(s, WriteQ(t)) || Term(s, t).writer == Some(p) ==> Proc(s', p) == Proc(s, p)
    ensures WriterRight(s', t) && StreamRight(s', t)
  {
    hide Flatten;
    PendingKept(s, s', Q(s, WriteQ(t)));
  }

  lemma ApartOutput(s: Kernel, s': Kernel, t: nat)
    requires CurrentAt(s, s', t) && Apart(s, s.current)
    ensures forall p :: p in Q(s, WriteQ(t)) || p in Q(s, ReadQ(t)) || Term(s, t).writer == Some(p) ==> Proc(s', p) == Proc(s, p)
  {
  }

  /** ProcessSchedule after the step, if it parked the current process. */
  lemma WentThenSchedule(s: Kernel, s1: Kernel)
    requires PlaceInv(s) && PlaceBase(s1) && Forward(s, s1) && Cur(s1).state.Blocked? && !DelayOver(s1, s1.current)
    requires LockInv(s1) && PipeInv(s1) && FamilyInv(s1) && TtyInv(s1)
    ensures var s' := Schedule(s1); Went(s, s', true) && TtyStep(s') && Blocks(s, s')
  {
    hide PlaceInv, PlaceBase, LockInv, PipeInv, FamilyInv, TtyInv, Schedule, SameTty, Forward;
    ParkScheduled(s, s1);
    ScheduleLife(s1, Schedule(s1));
    TtyKept(s1, Schedule(s1));
    hide ScheduleFrame;
    WentRefl(s);
    ForwardIds(s, s1);
    WentScheduled(s, s, s1, Schedule(s1));
  }

  lemma ForwardIds(s: Kernel, s1: Kernel)
    requires Forward(s, s1)
    ensures s.ready <= s1.ready && s1.idle == s.idle && s1.init == s.init && s1.current == s.current
    ensures forall p :: Lost(s, p) <==> Lost(s1, p)
  {
  }

  // ---------- TtyWrite ----------

  /** The PCB of a process whose write of data to terminal t was accepted. */
  function WritingPcb(pcb: Pcb, t: nat, data: seq<Byte>): Pcb {
    pcb.(ttyId := t, io := pcb.io.(writeBuf := data, writeOffset := 0, writeChunks := 0),
         state := Blocked, cont := InTtyWrite).Returning(|data|)
  }

  function Accepting(s: Kernel, t: nat, data: seq<Byte>): Kernel {
    SetTerm(s, t, Term(s, t).(accepted := Term(s, t).accepted + data))
  }

  /** The write goes straight to the terminal. */
  function DirectWrite(s: Kernel, t: nat, data: seq<Byte>): Kernel {
    Launch(Accepting(s, t, data), t, s.current, WritingPcb(Cur(s), t, data))
  }

  function QueuedWrite(s: Kernel, t: nat, data: seq<Byte>): Kernel {
    SetQ(SetCur(Accepting(s, t, data), WritingPcb(Cur(s), t, data).(blockQueue := Some(WriteQ(t)))),
         WriteQ(t), Q(s, WriteQ(t)) + [s.current])
  }

  lemma TtyWriteIs(s: Kernel, t: nat, mem: Option<seq<Byte>>, len: int)
    requires t < |s.terms| && mem.Some? && 0 < len <= |mem.value| && s.current != s.idle && s.current in s.procs
    ensures TtyWrite(s, t, mem, len, false) ==
      Schedule(if Term(s, t).writer.None? && !Term(s, t).busy then DirectWrite(s, t, mem.value[..len])
               else QueuedWrite(s, t, mem.value[..len]))
  {
    hide Schedule, StartWrite;
    var data := mem.value[..len];
    var s1 := Accepting(s, t, data);
    var pcb := WritingPcb(Cur(s), t, data);
    var s2 := SetCur(s1, pcb);
    if Term(s, t).writer.None? && !Term(s, t).busy {
      var s3 := SetTerm(s2, t, Term(s2, t).(writer := Some(s.current)));
      assert TtyWrite(s, t, mem, len, false) == Schedule(StartWrite(s3, t));
      assert Proc(s3, s.current) == pcb;
      TransmitIs(s3, t, s.current);
      var d := DirectWrite(s, t, data);
      assert Launch(s3, t, s.current, pcb).terms == d.terms;
      assert Launch(s3, t, s.current, pcb).procs == d.procs;
    } else {
      var q := SetQ(SetCur(s2, Cur(s2).(blockQueue := Some(WriteQ(t)))), WriteQ(t), Q(s2, WriteQ(t)) + [s.current]);
      assert q.procs == QueuedWrite(s, t, data).procs;
    }
  }

  lemma DirectFields(s: Kernel, t: nat, data: seq<Byte>)
    requires t < |s.terms| && s.current in s.procs && !Cur(s).state.Zombie? && Cur(s).cont.ToUser? && data != [] && s.current != s.idle
    requires Cur(s).blockQueue.None?
    ensures var s' := DirectWrite(s, t, data);
      && CurrentAt(s, s', t) && (forall q :: Q(s', q) == Q(s, q))
      && Term(s', t).writer == Some(s.current) && Term(s', t).inputQueue == Term(s, t).inputQueue
      && Cur(s').state.Blocked? && Cur(s').blockQueue == Cur(s).blockQueue && Cur(s').delayUntil == Cur(s).delayUntil
      && Cur(s').ttyId == t && Cur(s').cont.InTtyWrite? && s'.current == s.current
  {
    hide AfterChunk, ChunkOf;
  }

  lemma DirectParks(s: Kernel, s': Kernel, t: nat)
    requires QueuesAgree(s) && WritersAgree(s) && s.current in s.procs && Term(s, t).writer.None? && t < |s.terms|
    requires s'.procs == s.procs[s.current := Cur(s')] && s'.current == s.current
    requires forall q :: Q(s', q) == Q(s, q)
    requires |s'.terms| == |s.terms| && (forall u :: u != t ==> Term(s', u) == Term(s, u)) && Term(s', t).writer == Some(s.current)
    requires Cur(s').ttyId == t && Cur(s').blockQueue.None? && Cur(s').delayUntil == 0 && !Cur(s').waitingForChild
    requires Cur(s).blockQueue.None? && !IsWriter(s, s.current)
    ensures QueuesAgree(s') && WritersAgree(s') && Parks(s', s.current) == 1
    ensures forall x :: x in s.procs && x != s.current ==> Parks(s', x) == Parks(s, x)
  {
    hide Unique;
    assert forall u: nat :: Term(s', u).writer == if u == t then Some(s.current) else Term(s, u).writer;
  }

  lemma DirectPlaces(s: Kernel, t: nat, data: seq<Byte>)
    requires PlaceInv(s) && t < |s.terms| && Term(s, t).writer.None? && Cur(s).cont.ToUser? && data != [] && s.current != s.idle
    ensures var s' := DirectWrite(s, t, data); PlaceBase(s') && Forward(s, s') && CurrentAt(s, s', t)
  {
    hide PlaceInv, PlaceBase, QueuesAgree, WritersAgree, Parks, Forward, DirectWrite;
    CurrentFree(s);
    PlacePartsOf(s);
    DirectFields(s, t, data);
    DirectParks(s, DirectWrite(s, t, data), t);
    CurrentAtIds(s, DirectWrite(s, t, data), t);
    ParkedPlaces(s, DirectWrite(s, t, data));
  }

  lemma CurrentAtIds(s: Kernel, s': Kernel, t: nat)
    requires CurrentAt(s, s', t)
    ensures s'.ready == s.ready && s'.current == s.current && s'.idle == s.idle && s'.init == s.init && s'.clock == s.clock
    ensures s'.procs.Keys == s.procs.Keys
    ensures forall x :: x in s.procs && x != s.current ==> s'.procs[x] == s.procs[x]
  {
  }

  lemma DirectTty(s: Kernel, t: nat, data: seq<Byte>)
    requires PlaceInv(s) && TtyInv(s) && t < |s.terms| && Term(s, t).writer.None? && Cur(s).cont.ToUser? && data != [] && s.current != s.idle
    ensures TtyInv(DirectWrite(s, t, data))
  {
    hide PlaceInv, TtyInv, WritersAgree, StreamRight, InputRight, Apart, OnlyAt, DirectWrite;
    CurrentFree(s);
    PlacePartsOf(s);
    TerminalOf(s, t);
    CurrentApart(s);
    DirectFields(s, t, data);
    var s' := DirectWrite(s, t, data);
    DirectOutput(s, t, data);
    hide WriterRight;
    CurrentOnlyAt(s, s', t);
    ApartInput(s, s', t);
    TtyAt(s, s', t, {s.current});
  }

  lemma ApartInput(s: Kernel, s': Kernel, t: nat)
    requires CurrentAt(s, s', t) && Apart(s, s.current) && InputRight(s, t)
    requires Q(s', ReadQ(t)) == Q(s, ReadQ(t)) && Term(s', t).inputQueue == Term(s, t).inputQueue
    ensures InputRight(s', t)
  {
    ApartOutput(s, s', t);
  }

  lemma DirectOutput(s: Kernel, t: nat, data: seq<Byte>)
    requires t < |s.terms| && WriterRight(s, t) && StreamRight(s, t) && Term(s, t).writer.None? && data != []
    requires s.current !in Q(s, WriteQ(t)) && Cur(s).blockQueue.None?
    ensures var s' := DirectWrite(s, t, data); WriterRight(s', t) && StreamRight(s', t)
  {
    hide Flatten;
    var sA := Accepting(s, t, data);
    var pcb := WritingPcb(Cur(s), t, data);
    LaunchWriter(sA, t, s.current, pcb);
    assert pcb.io.writeBuf[pcb.io.writeOffset..] == data;
    assert Pending(sA, Q(sA, WriteQ(t))) == [];
    assert Flatten(Term(s, t).sent) == Term(s, t).accepted;
    LaunchStream(sA, t, s.current, pcb);
  }

  // ---------- a write that has to wait ----------

  lemma QueuedUp(s: Kernel, s': Kernel, q: QueueId)
    requires QueuesAgree(s) && s.current in s.procs && Cur(s).blockQueue.None?
    requires s'.procs == s.procs[s.current := Cur(s')] && s'.current == s.current && Cur(s').blockQueue == Some(q)
    requires forall r :: Q(s', r) == if r == q then Q(s, q) + [s.current] else Q(s, r)
    ensures QueuesAgree(s')
  {
    assert s.current !in Q(s, q) && Unique(Q(s, q));
    UniqueSnoc(Q(s, q), s.current);
    hide Unique;
  }

  lemma QueuedUpParks(s: Kernel, s': Kernel, t: nat)
    requires WritersAgree(s) && s.current in s.procs && Apart(s, s.current)
    requires s'.procs == s.procs[s.current := Cur(s')] && s'.current == s.current && Cur(s').blockQueue.Some?
    requires forall u: nat :: Term(s', u).writer == Term(s, u).writer
    requires Cur(s').delayUntil == 0 && !Cur(s').waitingForChild
    ensures WritersAgree(s') && Parks(s', s.current) == 1
    ensures forall x :: x in s.procs && x != s.current ==> Parks(s', x) == Parks(s, x)
  {
  }

  lemma QueuedFields(s: Kernel, t: nat, data: seq<Byte>)
    requires t < |s.terms| && s.current in s.procs && !Cur(s).state.Zombie? && Cur(s).cont.ToUser? && s.current != s.idle
    ensures var s' := QueuedWrite(s, t, data);
      && CurrentAt(s, s', t) && (forall r :: Q(s', r) == if r == WriteQ(t) then Q(s, WriteQ(t)) + [s.current] else Q(s, r))
      && (forall u: nat :: Term(s', u).writer == Term(s, u).writer)
      && Term(s', t) == Term(s, t).(accepted := Term(s, t).accepted + data)
      && Cur(s') == WritingPcb(Cur(s), t, data).(blockQueue := Some(WriteQ(t))) && s'.current == s.current
  {
  }

  lemma QueuedPlaces(s: Kernel, t: nat, data: seq<Byte>)
    requires PlaceInv(s) && t < |s.terms| && Cur(s).cont.ToUser? && s.current != s.idle
    ensures var s' := QueuedWrite(s, t, data); PlaceBase(s') && Forward(s, s') && CurrentAt(s, s', t)
  {
    hide PlaceInv, PlaceBase, QueuesAgree, WritersAgree, Parks, Forward, QueuedWrite, Apart;
    CurrentFree(s);
    PlacePartsOf(s);
    CurrentApart(s);
    QueuedFields(s, t, data);
    var s' := QueuedWrite(s, t, data);
    QueuedUp(s, s', WriteQ(t));
    QueuedUpParks(s, s', t);
    CurrentAtIds(s, s', t);
    ParkedPlaces(s, s');
  }

  lemma QueuedOutput(s: Kernel, t: nat, data: seq<Byte>, s': Kernel)
    requires t < |s.terms| && WriterRight(s, t) && StreamRight(s, t) && Term(s, t).writer.Some? && data != []
    requires Apart(s, s.current) && CurrentAt(s, s', t)
    requires Q(s', WriteQ(t)) == Q(s, WriteQ(t)) + [s.current] && s'.current == s.current
    requires Term(s', t) == Term(s, t).(accepted := Term(s, t).accepted + data)
    requires Cur(s') == WritingPcb(Cur(s), t, data).(blockQueue := Some(WriteQ(t)))
    ensures WriterRight(s', t) && StreamRight(s', t)
  {
    hide Flatten;
    ApartOutput(s, s', t);
    PendingAppend(s', Q(s, WriteQ(t)), s.current);
    PendingKept(s, s', Q(s, WriteQ(t)));
    assert Rest(s', t) == Rest(s, t);
    hide Pending, Rest;
    assert Flatten(Term(s, t).sent) + Rest(s, t) + (Pending(s, Q(s, WriteQ(t))) + data)
        == (Flatten(Term(s, t).sent) + Rest(s, t) + Pending(s, Q(s, WriteQ(t)))) + data;
  }

  lemma QueuedAt(s: Kernel, t: nat, data: seq<Byte>)
    requires PlaceInv(s) && t < |s.terms| && Cur(s).cont.ToUser? && s.current != s.idle && InputRight(s, t)
    ensures var s' := QueuedWrite(s, t, data);
      OnlyAt(s, s', t, {s.current}) && InputRight(s', t) && Cur(s').cont.InTtyWrite? && Cur(s').ttyId == t && s'.current == s.current && |s'.terms| == |s.terms|
  {
    hide PlaceInv, InputRight, Apart, OnlyAt, QueuedWrite;
    CurrentFree(s);
    CurrentApart(s);
    QueuedFields(s, t, data);
    CurrentOnlyAt(s, QueuedWrite(s, t, data), t);
    ApartInput(s, QueuedWrite(s, t, data), t);
  }

  lemma QueuedStream(s: Kernel, t: nat, data: seq<Byte>)
    requires PlaceInv(s) && TtyInv(s) && t < |s.terms| && Term(s, t).writer.Some? && Cur(s).cont.ToUser? && data != [] && s.current != s.idle
    ensures WriterRight(QueuedWrite(s, t, data), t) && StreamRight(QueuedWrite(s, t, data), t)
  {
    hide PlaceInv, TtyInv, WriterRight, StreamRight, InputRight, Apart, QueuedWrite, CurrentAt;
    CurrentFree(s);
    TerminalOf(s, t);
    CurrentApart(s);
    QueuedFields(s, t, data);
    QueuedOutput(s, t, data, QueuedWrite(s, t, data));
  }

  lemma QueuedTty(s: Kernel, t: nat, data: seq<Byte>)
    requires PlaceInv(s) && TtyInv(s) && t < |s.terms| && Term(s, t).writer.Some? && Cur(s).cont.ToUser? && data != [] && s.current != s.idle
    ensures TtyInv(QueuedWrite(s, t, data))
  {
    hide PlaceInv, TtyInv, WritersAgree, WriterRight, StreamRight, InputRight, OnlyAt, QueuedWrite;
    PlacePartsOf(s);
    TerminalOf(s, t);
    QueuedStream(s, t, data);
    QueuedAt(s, t, data);
    TtyAt(s, QueuedWrite(s, t, data), t, {s.current});
  }

  lemma AcceptedKept(s: Kernel, t: nat, mem: Option<seq<Byte>>, len: int)
    requires WholeTty(s) && Cur(s).cont.ToUser? && t < |s.terms| && mem.Some? && 0 < len <= |mem.value| && s.current != s.idle
    ensures var s' := TtyWrite(s, t, mem, len, false); Went(s, s', true) && TtyStep(s') && Blocks(s, s')
  {
    hide PlaceInv, PlaceBase, LockInv, PipeInv, FamilyInv, TtyInv, Whole, Went, Forward, CurrentAt, DirectWrite,
      QueuedWrite, Schedule, TtyWrite;
    WholePlaces(s);
    CurrentFree(s);
    var data := mem.value[..len];
    TtyWriteIs(s, t, mem, len);
    TerminalOf(s, t);
    if Term(s, t).writer.None? {
      DirectPlaces(s, t, data);
      DirectFields(s, t, data);
      DirectTty(s, t, data);
      CurrentAtKept(s, DirectWrite(s, t, data), t);
      WentThenSchedule(s, DirectWrite(s, t, data));
    } else {
      QueuedPlaces(s, t, data);
      QueuedFields(s, t, data);
      QueuedTty(s, t, data);
      CurrentAtKept(s, QueuedWrite(s, t, data), t);
      WentThenSchedule(s, QueuedWrite(s, t, data));
    }
  }

  lemma LifeIsTty(s: Kernel, s': Kernel)
    requires TtyInv(s) && LifeKept(s, s')
    ensures TtyStep(s')
  {
    hide LockInv, PipeInv, FamilyInv, TtyInv, SameTty;
    TtyKept(s, s');
  }

  lemma ReturnTty(s: Kernel, r: int)
    requires WholeTty(s) && !Cur(s).cont.InAcquire? && !TtyCont(Cur(s).cont)
    ensures var s' := Return(s, r); Went(s, s', Blocks(s, s')) && TtyStep(s')
  {
    hide Whole, TtyInv, TtyStep, Went, LifeKept;
    ReturnLife(s, r);
    LifeIsTty(s, Return(s, r));
  }

  lemma TtyWriteKept(s: Kernel, t: int, mem: Option<seq<Byte>>, len: int, oom: bool)
    requires WholeTty(s) && Cur(s).cont.ToUser?
    requires mem.Some? && len > 0 ==> len <= |mem.value|
    ensures var s' := TtyWrite(s, t, mem, len, oom); Went(s, s', Blocks(s, s')) && TtyStep(s')
  {
    hide Whole, TtyInv, TtyStep, Went, Schedule, StartWrite, Blocks;
    ReturnTty(s, ERROR);
    ReturnTty(s, 0);
    if 0 <= t < |s.terms| && len > 0 && mem.Some? && s.current != s.idle && !oom {
      AcceptedKept(s, t, mem, len);
    }
  }

  // ---------- the current process changed at its terminal, still running ----------

  lemma CurrentAtStill(s: Kernel, s': Kernel, t: nat)
    requires CurrentAt(s, s', t) && s'.queues == s.queues && Term(s', t).writer == Term(s, t).writer
    requires SameParking(Cur(s).(ttyId := Cur(s').ttyId), Cur(s')) && Cur(s').state == Cur(s).state
    requires QueuesAgree(s) && WritersAgree(s) && !IsWriter(s, s.current) && Apart(s, s.current)
    ensures QueuesAgree(s') && WritersAgree(s') && forall p :: p in s.procs ==> Parks(s', p) == Parks(s, p)
  {
    hide Unique, Term;
    assert forall q :: Q(s', q) == Q(s, q);
    assert forall u: nat :: Term(s', u).writer == Term(s, u).writer;
  }

  lemma CurrentAtWent(s: Kernel, s': Kernel, t: nat)
    requires PlaceInv(s) && CurrentAt(s, s', t) && s'.queues == s.queues && Term(s', t).writer == Term(s, t).writer
    requires SameParking(Cur(s).(ttyId := Cur(s').ttyId), Cur(s')) && Cur(s').state == Cur(s).state
    ensures Went(s, s', false) && !Blocks(s, s')
  {
    hide PlaceBase, QueuesAgree, WritersAgree, Parks, Apart, Forward, Lost;
    CurrentFree(s);
    PlacePartsOf(s);
    CurrentApart(s);
    CurrentAtStill(s, s', t);
    CurrentAtIds(s, s', t);
    hide PlaceInv;
    ParksMoved(s, s');
    ForwardWent(s, s');
  }

  /** What a step of the current process does to terminal t's input side. */
  ghost predicate InputSideStep(s: Kernel, s': Kernel, t: nat) {
    && CurrentAt(s, s', t) && s'.queues == s.queues
    && Term(s', t) == Term(s, t).(inputQueue := Term(s', t).inputQueue, line := Term(s', t).line)
    && (Term(s, t).inputQueue == [] ==> Term(s', t).inputQueue == [])
    && SameParking(Cur(s).(ttyId := Cur(s').ttyId), Cur(s')) && Cur(s').state == Cur(s).state
    && Cur(s').cont.ToUser? && s'.current == s.current
  }

  lemma InputSideAt(s: Kernel, s': Kernel, t: nat)
    requires InputSideStep(s, s', t) && Apart(s, s.current) && WriterRight(s, t) && StreamRight(s, t) && InputRight(s, t)
    ensures WriterRight(s', t) && StreamRight(s', t) && InputRight(s', t) && OnlyAt(s, s', t, {s.current})
    ensures ConsoleRight(Cur(s'), |s'.terms|)
  {
    hide WriterRight, StreamRight, Apart, OnlyAt;
    assert forall q :: Q(s', q) == Q(s, q);
    ApartOutput(s, s', t);
    OutputStays(s, s', t);
    CurrentOnlyAt(s, s', t);
  }

  lemma InputSideWent(s: Kernel, s': Kernel, t: nat)
    requires PlaceInv(s) && InputSideStep(s, s', t)
    ensures Went(s, s', false) && !Blocks(s, s')
  {
    hide PlaceInv, CurrentAt, SameParking;
    CurrentAtWent(s, s', t);
  }

  lemma InputSideKept(s: Kernel, s': Kernel, t: nat)
    requires WholeTty(s) && InputSideStep(s, s', t)
    ensures Went(s, s', false) && TtyStep(s') && !Blocks(s, s')
  {
    hide PlaceInv, LockInv, PipeInv, FamilyInv, TtyInv, Went, WriterRight, StreamRight, InputRight, Apart, OnlyAt,
      WritersAgree, CurrentAt, ConsoleRight;
    InputSideWent(s, s', t);
    CurrentAtKept(s, s', t);
    PlacePartsOf(s);
    CurrentApart(s);
    AtTerminal(s, s', t);
    TerminalOf(s, t);
    InputSideAt(s, s', t);
    TtyAt(s, s', t, {s.current});
  }

  lemma AtTerminal(s: Kernel, s': Kernel, t: nat)
    requires CurrentAt(s, s', t)
    ensures t < |s.terms| && |s'.terms| == |s.terms| && s.current in s.procs
  {
  }

  lemma ResumeTtyWriteKept(s: Kernel)
    requires WholeTty(s) && Cur(s).cont.InTtyWrite?
    ensures var s' := ResumeTtyWrite(s); Went(s, s', Blocks(s, s')) && TtyStep(s')
  {
    hide Whole, TtyInv, PlaceInv, LockInv, PipeInv, FamilyInv, Went, TtyStep, Before, IsWriter, Parks, Q;
    WholePlaces(s);
    WholeBefore(s);
    CurrentFree(s);
    ConsoleOf(s);
    ResumingIsNotIdle(s);
    assert InputSideStep(s, ResumeTtyWrite(s), Cur(s).ttyId);
    InputSideKept(s, ResumeTtyWrite(s), Cur(s).ttyId);
  }

  // ---------- TtyRead ----------

  /** A read that finds a line. */
  function LineRead(s: Kernel, pcb: Pcb, t: nat, line: Line, term: Terminal): Kernel {
    var n := Min(|line.data| - line.pos, pcb.io.readLen);
    var rest := Line(line.data, line.pos + n);
    Finish(SetTerm(s, t, if rest.pos < |rest.data| then term.(line := Some(rest)) else term),
           pcb.(io := pcb.io.(readLine := None), user := pcb.user.(got := line.data[line.pos..rest.pos])), n)
  }

  lemma LineReadKept(s: Kernel, pcb: Pcb, t: nat)
    requires WholeTty(s) && t < |s.terms| && (Cur(s).cont.ToUser? || Cur(s).cont.InTtyRead?) && s.current != s.idle
    requires pcb == Cur(s).(ttyId := t, io := Cur(s).io.(readLen := pcb.io.readLen))
    requires NextLine(Term(s, t), pcb).0.Some?
    ensures var s' := LineRead(s, pcb, t, NextLine(Term(s, t), pcb).0.value, NextLine(Term(s, t), pcb).1);
            Went(s, s', false) && TtyStep(s') && !Blocks(s, s')
  {
    hide Whole, TtyInv, Went, TtyStep, PlaceInv, LockInv, PipeInv, FamilyInv, IsWriter, Parks, Q;
    WholePlaces(s);
    CurrentFree(s);
    var s' := LineRead(s, pcb, t, NextLine(Term(s, t), pcb).0.value, NextLine(Term(s, t), pcb).1);
    assert InputSideStep(s, s', t);
    InputSideKept(s, s', t);
  }

  /** The current process, with PCB pcb but for that, in the read queue of terminal t. */
  function Reading(s: Kernel, pcb: Pcb, t: nat): Kernel {
    SetQ(SetCur(s, pcb.(state := Blocked, blockQueue := Some(ReadQ(t)), cont := InTtyRead)), ReadQ(t), Q(s, ReadQ(t)) + [s.current])
  }

  lemma TtyReadLoopIs(s: Kernel, pcb: Pcb, t: nat)
    requires t < |s.terms| && pcb.ttyId == t
    ensures TtyReadLoop(SetCur(s, pcb), t) ==
      match NextLine(Term(s, t), pcb).0
      case None => Schedule(Reading(s, pcb, t))
      case Some(line) => LineRead(s, pcb, t, line, NextLine(Term(s, t), pcb).1)
  {
    hide Schedule;
    var s0 := SetCur(s, pcb);
    assert Cur(s0) == pcb && Term(s0, t) == Term(s, t);
    match NextLine(Term(s, t), pcb).0
    case None =>
      assert Enqueue(s0, ReadQ(t), InTtyRead).procs == Reading(s, pcb, t).procs;
      assert Enqueue(s0, ReadQ(t), InTtyRead) == Reading(s, pcb, t);
    case Some(line) =>
      assert TtyReadLoop(s0, t).procs == LineRead(s, pcb, t, line, NextLine(Term(s, t), pcb).1).procs;
  }

  lemma ReadingFields(s: Kernel, pcb: Pcb, t: nat)
    requires t < |s.terms| && s.current in s.procs && !Cur(s).state.Zombie? && s.current != s.idle
    requires Cur(s).cont.ToUser? || Cur(s).cont.InTtyRead?
    requires pcb == Cur(s).(ttyId := t, io := Cur(s).io.(readLen := pcb.io.readLen))
    ensures var s' := Reading(s, pcb, t);
      && CurrentAt(s, s', t) && (forall r :: Q(s', r) == if r == ReadQ(t) then Q(s, ReadQ(t)) + [s.current] else Q(s, r))
      && s'.terms == s.terms && s'.current == s.current
      && Cur(s') == pcb.(state := Blocked, blockQueue := Some(ReadQ(t)), cont := InTtyRead)
  {
  }

  lemma ReadingPlaces(s: Kernel, pcb: Pcb, t: nat)
    requires PlaceInv(s) && t < |s.terms| && s.current != s.idle && (Cur(s).cont.ToUser? || Cur(s).cont.InTtyRead?)
    requires pcb == Cur(s).(ttyId := t, io := Cur(s).io.(readLen := pcb.io.readLen))
    ensures var s' := Reading(s, pcb, t); PlaceBase(s') && Forward(s, s') && CurrentAt(s, s', t)
  {
    hide PlaceInv, PlaceBase, QueuesAgree, WritersAgree, Parks, Forward, Reading, Apart;
    CurrentFree(s);
    PlacePartsOf(s);
    CurrentApart(s);
    ReadingFields(s, pcb, t);
    var s' := Reading(s, pcb, t);
    QueuedUp(s, s', ReadQ(t));
    QueuedUpParks(s, s', t);
    CurrentAtIds(s, s', t);
    ParkedPlaces(s, s');
  }

  lemma ReadingAt(s: Kernel, pcb: Pcb, t: nat)
    requires PlaceInv(s) && t < |s.terms| && s.current != s.idle && (Cur(s).cont.ToUser? || Cur(s).cont.InTtyRead?)
    requires pcb == Cur(s).(ttyId := t, io := Cur(s).io.(readLen := pcb.io.readLen))
    requires WriterRight(s, t) && StreamRight(s, t) && InputRight(s, t) && NextLine(Term(s, t), pcb).0.None? && pcb.io.readLen > 0
    ensures var s' := Reading(s, pcb, t);
      && WriterRight(s', t) && StreamRight(s', t) && InputRight(s', t) && OnlyAt(s, s', t, {s.current})
      && ConsoleRight(Cur(s'), |s'.terms|) && s'.current == s.current && s.current in s.procs
  {
    hide PlaceInv, WriterRight, StreamRight, Apart, OnlyAt, Reading;
    CurrentFree(s);
    CurrentApart(s);
    ReadingFields(s, pcb, t);
    var s' := Reading(s, pcb, t);
    ApartOutput(s, s', t);
    OutputStays(s, s', t);
    CurrentOnlyAt(s, s', t);
  }

  lemma ReadingKept(s: Kernel, pcb: Pcb, t: nat)
    requires WholeTty(s) && t < |s.terms| && s.current != s.idle && (Cur(s).cont.ToUser? || Cur(s).cont.InTtyRead?)
    requires pcb == Cur(s).(ttyId := t, io := Cur(s).io.(readLen := pcb.io.readLen)) && NextLine(Term(s, t), pcb).0.None?
    requires pcb.io.readLen > 0
    ensures var s' := Schedule(Reading(s, pcb, t)); Went(s, s', true) && TtyStep(s') && Blocks(s, s')
  {
    hide PlaceInv, PlaceBase, LockInv, PipeInv, FamilyInv, TtyInv, Whole, Went, Forward, CurrentAt, Reading,
      Schedule, OnlyAt, WriterRight, StreamRight, InputRight, WritersAgree, ConsoleRight;
    WholePlaces(s);
    CurrentFree(s);
    PlacePartsOf(s);
    TerminalOf(s, t);
    ReadingPlaces(s, pcb, t);
    ReadingFields(s, pcb, t);
    ReadingAt(s, pcb, t);
    TtyAt(s, Reading(s, pcb, t), t, {s.current});
    CurrentAtKept(s, Reading(s, pcb, t), t);
    WentThenSchedule(s, Reading(s, pcb, t));
  }

  lemma TtyReadLoopKept(s: Kernel, pcb: Pcb, t: nat)
    requires WholeTty(s) && t < |s.terms| && s.current != s.idle && (Cur(s).cont.ToUser? || Cur(s).cont.InTtyRead?)
    requires pcb == Cur(s).(ttyId := t, io := Cur(s).io.(readLen := pcb.io.readLen)) && pcb.io.readLen > 0
    ensures var s' := TtyReadLoop(SetCur(s, pcb), t); Went(s, s', Blocks(s, s')) && TtyStep(s')
  {
    hide WholeTty, Went, TtyStep, Reading, LineRead, Schedule, NextLine, TtyReadLoop;
    TtyReadLoopIs(s, pcb, t);
    if NextLine(Term(s, t), pcb).0.None? {
      ReadingKept(s, pcb, t);
    } else {
      LineReadKept(s, pcb, t);
    }
  }

  lemma TtyReadKept(s: Kernel, t: int, len: int, nullBuf: bool)
    requires WholeTty(s) && Cur(s).cont.ToUser?
    ensures var s' := TtyRead(s, t, len, nullBuf); Went(s, s', Blocks(s, s')) && TtyStep(s')
  {
    hide WholeTty, Went, TtyStep, TtyReadLoop, Blocks;
    ReturnTty(s, ERROR);
    ReturnTty(s, 0);
    if 0 <= t < |s.terms| && len > 0 && s.current != s.idle {
      TtyReadLoopKept(s, Cur(s).(ttyId := t, io := Cur(s).io.(readLen := len)), t);
    }
  }

  lemma ConsoleOf(s: Kernel)
    requires TtyInv(s) && s.current in s.procs
    ensures ConsoleRight(Cur(s), |s.terms|)
  {
  }

  lemma ResumeTtyReadKept(s: Kernel)
    requires WholeTty(s) && Cur(s).cont.InTtyRead?
    ensures var s' := ResumeTtyRead(s); Went(s, s', Blocks(s, s')) && TtyStep(s')
  {
    hide Whole, TtyInv, PlaceInv, LockInv, PipeInv, Went, TtyStep, TtyReadLoop, Blocks;
    WholeFree(s);
    ConsoleOf(s);
    WholeBefore(s);
    ResumingIsNotIdle(s);
    assert s.procs[s.current := Cur(s)] == s.procs;
    TtyReadLoopKept(s, Cur(s), Cur(s).ttyId);
  }

  lemma WholeBefore(s: Kernel)
    requires Whole(s)
    ensures Before(s)
  {
  }

  // ---------- the receive trap ----------

  lemma ReceivedPlaces(s: Kernel, t: nat, data: seq<Byte>)
    requires PlaceInv(s) && Q(s, ReadQ(t)) != [] && t < |s.terms|
    ensures var r := Q(s, ReadQ(t))[0];
      var s' := TrapReceive(s, t, data, true);
      && PlaceBase(s') && Forward(s, s') && r in s.procs && r != s.current && s.procs[r].state.Blocked?
      && s' == s.(procs := s.procs[r := s.procs[r].(blockQueue := None, io := s.procs[r].io.(readLine := Some(Line(data, 0))), state := Ready)],
                  queues := s.queues[ReadQ(t) := Q(s, ReadQ(t))[1..]], ready := s.ready + [r])
  {
    hide PlaceInv, PlaceBase, Forward, MakeReady;
    CurrentFree(s);
    PlaceBaseOf(s);
    QueueMembers(s, ReadQ(t));
    HeadIn(Q(s, ReadQ(t)));
    var r := Q(s, ReadQ(t))[0];
    PopToReady(s, ReadQ(t), s.procs[r].(blockQueue := None, io := s.procs[r].io.(readLine := Some(Line(data, 0)))));
    WokenForward(s, TrapReceive(s, t, data, true), [r]);
  }

  lemma ReceivedAt(s: Kernel, t: nat, data: seq<Byte>, s': Kernel)
    requires Q(s, ReadQ(t)) != [] && t < |s.terms| && Unique(Q(s, ReadQ(t)))
    requires WriterRight(s, t) && StreamRight(s, t) && InputRight(s, t)
    requires var r := Q(s, ReadQ(t))[0];
      && r in s.procs && r !in Q(s, WriteQ(t)) && Term(s, t).writer != Some(r) && s.procs[r].io.readLen > 0
      && s' == s.(procs := s.procs[r := s.procs[r].(blockQueue := None, io := s.procs[r].io.(readLine := Some(Line(data, 0))), state := Ready)],
                  queues := s.queues[ReadQ(t) := Q(s, ReadQ(t))[1..]], ready := s.ready + [r])
    ensures WriterRight(s', t) && StreamRight(s', t) && InputRight(s', t)
    ensures OnlyAt(s, s', t, {Q(s, ReadQ(t))[0]}) && ConsoleRight(s'.procs[Q(s, ReadQ(t))[0]], |s'.terms|)
    ensures TtyOnly(s, s') || s.procs[Q(s, ReadQ(t))[0]].state.Zombie?
  {
    hide WriterRight, StreamRight, Unique, Apart;
    var r := Q(s, ReadQ(t))[0];
    UniqueTail(Q(s, ReadQ(t)));
    assert forall p :: p in Q(s, WriteQ(t)) || Term(s, t).writer == Some(p) ==> Proc(s', p) == Proc(s, p);
    OutputStays(s, s', t);
  }

  lemma ReaderElsewhere(s: Kernel, t: nat, r: Pid)
    requires PlaceInv(s) && r in Q(s, ReadQ(t))
    ensures r !in Q(s, WriteQ(t)) && Term(s, t).writer != Some(r) && Unique(Q(s, ReadQ(t))) && r in s.procs
  {
    assert s.procs[r].blockQueue == Some(ReadQ(t));
    assert Term(s, t).writer.Some? ==> IsWriter(s, Term(s, t).writer.value);
    assert ParksAgree(s, r);
  }

  lemma ReaderAsks(s: Kernel, t: nat, r: Pid)
    requires TtyInv(s) && t < |s.terms| && r in Q(s, ReadQ(t)) && r in s.procs
    ensures s.procs[r].io.readLen > 0
  {
    hide WriterRight, StreamRight;
    TerminalOf(s, t);
    assert ConsoleRight(s.procs[r], |s.terms|);
  }

  lemma HandedLineKept(s: Kernel, t: nat, data: seq<Byte>)
    requires WholeTty(s) && t < |s.terms| && Q(s, ReadQ(t)) != []
    ensures var s' := TrapReceive(s, t, data, true); Went(s, s', false) && TtyStep(s')
  {
    hide PlaceInv, PlaceBase, LockInv, PipeInv, FamilyInv, TtyInv, Whole, Went, Forward, OnlyAt, WriterRight,
      StreamRight, InputRight, WritersAgree, TtyOnly, ConsoleRight, TrapReceive;
    WholePlaces(s);
    PlacePartsOf(s);
    TerminalOf(s, t);
    HeadIn(Q(s, ReadQ(t)));
    var r := Q(s, ReadQ(t))[0];
    ReaderElsewhere(s, t, r);
    ReaderAsks(s, t, r);
    ReceivedPlaces(s, t, data);
    var s' := TrapReceive(s, t, data, true);
    ReceivedAt(s, t, data, s');
    TtyAt(s, s', t, {r});
    TtyOnlyKept(s, s');
    TtyOnlyFamily(s, s');
    TurnoverWent(s, s', r);
  }

  lemma TtyOnlyFamily(s: Kernel, s': Kernel)
    requires TtyOnly(s, s')
    ensures SameFamily(s, s')
  {
  }

  lemma StoredLineKept(s: Kernel, t: nat, data: seq<Byte>)
    requires WholeTty(s) && t < |s.terms| && Q(s, ReadQ(t)) == []
    ensures var s' := TrapReceive(s, t, data, true); Went(s, s', false) && TtyStep(s')
  {
    hide PlaceInv, LockInv, PipeInv, FamilyInv, TtyInv, Whole, Went, OnlyAt, WriterRight, StreamRight, WritersAgree;
    WholePlaces(s);
    PlacePartsOf(s);
    TerminalOf(s, t);
    var s' := TrapReceive(s, t, data, true);
    assert forall q :: Q(s', q) == Q(s, q);
    OutputStays(s, s', t);
    assert InputRight(s', t);
    StoredStill(s, s', t);
    hide InputRight;
    TtyAt(s, s', t, {});
    TtyOnlyKept(s, s');
    StillWent(s, s');
  }

  lemma StoredStill(s: Kernel, s': Kernel, t: nat)
    requires t < |s.terms| && s' == SetTerm(s, t, Term(s, t).(inputQueue := Term(s', t).inputQueue))
    ensures Still(s, s') && TtyOnly(s, s') && OnlyAt(s, s', t, {})
  {
    hide Apart;
    assert forall q :: Q(s', q) == Q(s, q);
  }

  lemma TrapReceiveKept(s: Kernel, t: int, data: seq<Byte>, ok: bool)
    requires WholeTty(s)
    ensures var s' := TrapReceive(s, t, data, ok); Went(s, s', false) && TtyStep(s')
  {
    hide TtyInv, PlaceInv, LockInv, PipeInv, FamilyInv, Went, MakeReady;
    WentRefl(s);
    if 0 <= t < |s.terms| && ok {
      if Q(s, ReadQ(t)) != [] {
        HandedLineKept(s, t, data);
      } else {
        StoredLineKept(s, t, data);
      }
    }
  }
}
