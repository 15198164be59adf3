/**
 * Terminal input over whole runs. A line handed to one reader and not read to its end replaces the leftover line
 * of another (src/tty.c:223-224): the bytes received are all accounted for, each as often as it was received,
 * exactly in the runs where that does not happen. Where no two processes read a terminal at a time, its bytes are
 * delivered in the order in which they were received.
 */
module InputTheorems {
  import opened Common
  import opened KernelState
  import opened KernelSteps
  import opened KernelInvariants
  import TtyProofs
  import opened TtyCallProofs
  import opened StepFrames
  import opened StepTheorems
  import opened RunTheorems
  import ObjectTheorems
  import opened TtyTheorems

  // ---------- where received bytes are ----------

  function LineLeft(line: Option<Line>): seq<Byte> {
    match line case None => [] case Some(l) => l.data[l.pos..]
  }

  function QueuedLeft(lines: seq<Line>): seq<Byte> {
    if lines == [] then [] else LineLeft(Some(lines[0])) + QueuedLeft(lines[1..])
  }

  lemma {:induction false} QueuedAppend(lines: seq<Line>, l: Line)
    ensures QueuedLeft(lines + [l]) == QueuedLeft(lines) + LineLeft(Some(l))
  {
    if lines == [] {
      assert [l][1..] == [];
    } else {
      assert (lines + [l])[1..] == lines[1..] + [l];
      QueuedAppend(lines[1..], l);
    }
  }

  /** The bytes of terminal t that process p was handed and has not read. */
  function Hand(s: Kernel, p: Pid, t: nat): seq<Byte> {
    if Proc(s, p).cont.InTtyRead? && Proc(s, p).ttyId == t then LineLeft(Proc(s, p).io.readLine) else []
  }

  function Hands(s: Kernel, t: nat, n: nat): seq<Byte> {
    if n == 0 then [] else Hands(s, t, n - 1) + Hand(s, n - 1, t)
  }

  /** All bytes of terminal t the kernel has and may still deliver: in hands, left over, and queued. */
  function Stock(s: Kernel, t: nat): seq<Byte> {
    Hands(s, t, MAX_PROCS) + LineLeft(Term(s, t).line) + QueuedLeft(Term(s, t).inputQueue)
  }

  ghost predicate SameEachHand(s: Kernel, s': Kernel, t: nat) {
    forall p: Pid :: Hand(s', p, t) == Hand(s, p, t)
  }

  lemma {:induction false} SameHands(s: Kernel, s': Kernel, t: nat, n: nat)
    requires forall p: Pid :: p < n ==> Hand(s', p, t) == Hand(s, p, t)
    ensures Hands(s', t, n) == Hands(s, t, n)
  {
    hide Hand;
    if n > 0 {
      SameHands(s, s', t, n - 1);
    }
  }

  /** Only the hand of r changes. */
  lemma {:induction false} OneHand(s: Kernel, s': Kernel, t: nat, n: nat, r: Pid)
    requires forall p: Pid :: p < n && p != r ==> Hand(s', p, t) == Hand(s, p, t)
    ensures r >= n ==> Hands(s', t, n) == Hands(s, t, n)
    ensures r < n ==>
      multiset(Hands(s', t, n)) + multiset(Hand(s, r, t)) == multiset(Hands(s, t, n)) + multiset(Hand(s', r, t))
  {
    hide Hand;
    if n > 0 {
      OneHand(s, s', t, n - 1, r);
      var h, h' := Hands(s, t, n - 1), Hands(s', t, n - 1);
      assert multiset(h + Hand(s, n - 1, t)) == multiset(h) + multiset(Hand(s, n - 1, t));
      assert multiset(h' + Hand(s', n - 1, t)) == multiset(h') + multiset(Hand(s', n - 1, t));
      if r < n - 1 {
        Exchange(multiset(h'), multiset(Hand(s, r, t)), multiset(h), multiset(Hand(s', r, t)), multiset(Hand(s, n - 1, t)));
      } else if r == n - 1 {
        assert h' == h;
        Swap(multiset(h), multiset(Hand(s', r, t)), multiset(Hand(s, r, t)));
      }
    }
  }

  lemma Swap(a: multiset<Byte>, b: multiset<Byte>, c: multiset<Byte>)
    ensures a + b + c == a + c + b
  {
  }

  lemma Exchange(a: multiset<Byte>, b: multiset<Byte>, c: multiset<Byte>, d: multiset<Byte>, x: multiset<Byte>)
    requires a + b == c + d
    ensures a + x + b == c + x + d
  {
    forall y ensures (a + x + b)[y] == (c + x + d)[y] {
      assert (a + b)[y] == (c + d)[y];
    }
  }

  /** Nobody but r has anything in hand. */
  lemma {:induction false} OnlyHand(s: Kernel, t: nat, n: nat, r: Pid)
    requires forall p: Pid :: p < n && p != r ==> Hand(s, p, t) == []
    ensures Hands(s, t, n) == if r < n then Hand(s, r, t) else []
  {
    hide Hand;
    if n > 0 {
      OnlyHand(s, t, n - 1, r);
    }
  }

  /** Only a process in TtyRead has a line in hand; a leftover line is not empty. */
  ghost predicate LinesRight(s: Kernel) {
    && (forall p :: Proc(s, p).io.readLine.Some? ==> Proc(s, p).cont.InTtyRead?)
    && (forall t: nat :: Term(s, t).line.Some? ==> LineLeft(Term(s, t).line) != [])
  }

  // ---------- what a step receives, delivers and loses ----------

  function ReceivedBy(s: Kernel, e: Event, t: nat): seq<Byte> {
    if e.EvReceive? && e.ok && e.tty == t && t < |s.terms| then e.data else []
  }

  predicate ReadsLine(s: Kernel, e: Event, t: nat) {
    (e.EvTtyRead? && e.tty == t && t < |s.terms|) || (e.EvResume? && Cur(s).cont.InTtyRead? && Cur(s).ttyId == t)
  }

  /** The caller reads terminal t, and is not refused. */
  predicate Reads(s: Kernel, e: Event, t: nat) {
    ReadsLine(s, e, t) && (e.EvTtyRead? ==> e.len > 0 && !e.nullBuf && s.current != s.idle)
  }

  /** The bytes a read of terminal t leaves in its caller's buffer. */
  function DeliveredBy(s: Kernel, e: Event, t: nat): seq<Byte>
    requires Legal(s, e)
  {
    var r := ObjectTheorems.Answer(s, Step(s, e));
    if ReadsLine(s, e, t) && r.Some? && r.value > 0 then Proc(Step(s, e), s.current).user.got else []
  }

  /** A reader with a line of its own, too long for its buffer, while there is a leftover line already. */
  predicate Overwrites(s: Kernel, e: Event, t: nat) {
    && e.EvResume? && ReadsLine(s, e, t) && Term(s, t).line.Some?
    && |LineLeft(Cur(s).io.readLine)| > Cur(s).io.readLen
  }

  function LostBy(s: Kernel, e: Event, t: nat): seq<Byte> {
    if Overwrites(s, e, t) then LineLeft(Term(s, t).line) else []
  }

  /** The books balance over the step, byte by byte. */
  ghost predicate Accounted(s: Kernel, e: Event, t: nat, s': Kernel)
    requires Legal(s, e)
  {
    multiset(Stock(s', t)) + multiset(DeliveredBy(s, e, t)) + multiset(LostBy(s, e, t)) == multiset(Stock(s, t)) + multiset(ReceivedBy(s, e, t))
  }

  // ---------- steps that are about something else ----------

  predicate SameInput(s: Kernel, s': Kernel, t: nat) {
    Term(s', t).line == Term(s, t).line && Term(s', t).inputQueue == Term(s, t).inputQueue && Q(s', ReadQ(t)) == Q(s, ReadQ(t))
  }

  lemma {:induction false} StartWriteInput(s: Kernel, u: nat, t: nat)
    requires u < |s.terms|
    ensures SameInput(s, StartWrite(s, u), t)
    decreases |Q(s, WriteQ(u))| + (if Term(s, u).writer.Some? then 1 else 0), 1
  {
    var term := Term(s, u);
    if !term.busy && term.writer.Some? {
      TransmitInput(s, u, t);
    } else if !term.busy && Q(s, WriteQ(u)) != [] {
      var w := Q(s, WriteQ(u))[0];
      var s1 := SetQ(s, WriteQ(u), Q(s, WriteQ(u))[1..]);
      var s2 := SetTerm(s1, u, term.(writer := Some(w)));
      TransmitInput(SetProc(s2, w, Proc(s2, w).(blockQueue := None)), u, t);
    }
  }

  lemma {:induction false} TransmitInput(s: Kernel, u: nat, t: nat)
    requires u < |s.terms| && Term(s, u).writer.Some?
    ensures SameInput(s, Transmit(s, u), t)
    decreases |Q(s, WriteQ(u))| + 1, 0
  {
    var term := Term(s, u);
    var w := term.writer.value;
    var pcb := Proc(s, w);
    if pcb.io.writeOffset >= |pcb.io.writeBuf| {
      var s1 := SetTerm(s, u, term.(writer := None));
      MakeReadyTerms(s1, w, pcb);
      StartWriteInput(MakeReady(s1, w, pcb), u, t);
    }
  }

  lemma TrapTransmitInput(s: Kernel, u: int, t: nat)
    ensures SameInput(s, TrapTransmit(s, u), t)
  {
    hide StartWrite, MakeReady;
    if 0 <= u < |s.terms| {
      var s1 := SetTerm(s, u, Term(s, u).(busy := false));
      StartWriteInput(s1, u, t);
      if Term(s1, u).writer.Some? {
        var w := Term(s1, u).writer.value;
        var pcb := Proc(s1, w).Returning(|Proc(s1, w).io.writeBuf|);
        var s2 := SetTerm(s1, u, Term(s1, u).(writer := None));
        MakeReadyTerms(s2, w, pcb);
        StartWriteInput(MakeReady(s2, w, pcb), u, t);
      }
    }
  }

  lemma WriteInput(s: Kernel, e: Event, t: nat)
    requires Legal(s, e) && e.EvTtyWrite?
    ensures SameInput(s, Step(s, e), t)
  {
    hide StartWrite, Schedule;
    var u, mem, len := e.tty, e.mem, e.len;
    if 0 <= u < |s.terms| && mem.Some? && len > 0 && s.current != s.idle && !e.oom {
      var data := mem.value[..len];
      var s1 := WithAccepted(s, u, data);
      var pcb := Cur(s1).(ttyId := u, io := Cur(s1).io.(writeBuf := data, writeOffset := 0, writeChunks := 0),
                          state := Blocked, cont := InTtyWrite).Returning(len);
      var s2 := SetCur(s1, pcb);
      var s3 := SetTerm(s2, u, Term(s2, u).(writer := Some(s.current)));
      StartWriteInput(s3, u, t);
      ScheduleTerms(StartWrite(s3, u));
      ScheduleTerms(SetQ(SetCur(s2, Cur(s2).(blockQueue := Some(WriteQ(u)))), WriteQ(u), Q(s2, WriteQ(u)) + [s.current]));
    }
  }

  lemma SameTtyInput(s: Kernel, s': Kernel, t: nat)
    requires SameTty(s, s') || (s'.terms == s.terms && s'.queues == s.queues)
    ensures SameInput(s, s', t)
  {
  }

  /** The steps that are neither a receive trap nor a terminal read leave the input of every terminal alone. */
  lemma OtherInput(s: Kernel, e: Event, t: nat)
    requires Inv(s) && Legal(s, e) && !e.EvReceive? && !e.EvTtyRead? && !(e.EvResume? && Cur(s).cont.InTtyRead?)
    ensures SameInput(s, Step(s, e), t)
  {
    hide Inv, SameTty, TrapTransmit, SameInput;
    if OffTerminals(s, e) {
      TerminalsKept(s, e);
      SameTtyInput(s, Step(s, e), t);
    } else {
      match e {
        case EvResume => SameTtyInput(s, Step(s, e), t);
        case EvTtyWrite(_, _, _, _) => WriteInput(s, e, t);
        case EvTransmit(u) => TrapTransmitInput(s, u, t);
      }
    }
  }

  /** Nobody's hand changes in a step that neither hands a line over nor is taken by a process with one. */
  lemma HandsKept(s: Kernel, e: Event, s': Kernel, t: nat)
    requires Legal(s, e) && Isolated(s, e, s') && !e.EvReceive? && LinesRight(s) && Cur(s).io.readLine.None? && ZombiesRight(s)
    ensures Hands(s', t, MAX_PROCS) == Hands(s, t, MAX_PROCS) && SameEachHand(s, s', t)
    ensures forall p :: Proc(s', p).io.readLine.Some? ==> Proc(s', p).cont.InTtyRead?
  {
    hide Named, AcceptedBy, ObjectKept, Legal;
    forall p ensures Hand(s', p, t) == Hand(s, p, t) && (Proc(s', p).io.readLine.Some? ==> Proc(s', p).cont.InTtyRead?) {
      if p in s.procs && p != s.current {
        HandKept(s, e, s', p, t);
      } else {
        assert Proc(s, p).io.readLine.None? && Proc(s', p).io.readLine.None?;
      }
    }
    SameHands(s, s', t, MAX_PROCS);
  }

  lemma HandKept(s: Kernel, e: Event, s': Kernel, p: Pid, t: nat)
    requires Legal(s, e) && Isolated(s, e, s') && !e.EvReceive? && LinesRight(s) && p in s.procs && p != s.current && ZombiesRight(s)
    ensures Hand(s', p, t) == Hand(s, p, t) && (Proc(s', p).io.readLine.Some? ==> Proc(s', p).cont.InTtyRead?)
  {
    hide Named, AcceptedBy, ObjectKept, Legal;
    assert Proc(s, p).io.readLine.Some? ==> Proc(s, p).cont.InTtyRead?;
  }

  lemma ZombiesOf(s: Kernel)
    requires Inv(s)
    ensures ZombiesRight(s)
  {
  }

  lemma OtherStep(s: Kernel, e: Event, t: nat)
    requires Inv(s) && LinesRight(s) && Legal(s, e) && !e.EvReceive? && !e.EvTtyRead? && !(e.EvResume? && Cur(s).cont.InTtyRead?)
    ensures Accounted(s, e, t, Step(s, e)) && SameInput(s, Step(s, e), t) && Hands(Step(s, e), t, MAX_PROCS) == Hands(s, t, MAX_PROCS)
    ensures DeliveredBy(s, e, t) == [] && ReceivedBy(s, e, t) == [] && SameEachHand(s, Step(s, e), t)
    ensures forall p :: Proc(Step(s, e), p).io.readLine.Some? ==> Proc(Step(s, e), p).cont.InTtyRead?
  {
    hide Inv, Step, Isolated, Hands, Legal, ZombiesRight, Accounted, LinesRight, LineLeft, QueuedLeft;
    ZombiesOf(s);
    StepIsolated(s, e);
    OtherInput(s, e, t);
    NotReading(s, e);
    HandsKept(s, e, Step(s, e), t);
    NothingStirs(s, e, t, Step(s, e));
  }

  lemma NotReading(s: Kernel, e: Event)
    requires LinesRight(s) && Legal(s, e) && !(e.EvResume? && Cur(s).cont.InTtyRead?)
    ensures Cur(s).io.readLine.None?
  {
  }

  // ---------- reading ----------

  /** What one read does: got and rest make up the line it found, which is the reader's own, the leftover, or the first of the queue. */
  ghost predicate Takes(own: seq<Byte>, left: seq<Byte>, queue: seq<Byte>, got: seq<Byte>, lost: seq<Byte>, left': seq<Byte>, queue': seq<Byte>) {
    || (exists rest :: own == got + rest && queue' == queue &&
          left' == (if rest == [] then left else rest) && lost == (if rest == [] then [] else left))
    || (own == [] && left == got + left' && queue' == queue && lost == [])
    || (own == [] && left == [] && queue == got + left' + queue' && lost == [])
  }

  lemma TakesBalances(h: seq<Byte>, own: seq<Byte>, left: seq<Byte>, queue: seq<Byte>, got: seq<Byte>, lost: seq<Byte>,
                      h': seq<Byte>, left': seq<Byte>, queue': seq<Byte>)
    requires multiset(h') + multiset(own) == multiset(h) && Takes(own, left, queue, got, lost, left', queue')
    ensures multiset(h' + left' + queue') + multiset(got) + multiset(lost) == multiset(h + left + queue)
  {
    forall x ensures (multiset(h' + left' + queue') + multiset(got) + multiset(lost))[x] == multiset(h + left + queue)[x] {
      assert (multiset(h') + multiset(own))[x] == multiset(h)[x];
    }
  }

  /** The premises of a read by the current process, with PCB pcb, that finds a line at terminal t. */
  ghost predicate FindsLine(s: Kernel, e: Event, pcb: Pcb, t: nat) {
    && Legal(s, e) && Reads(s, e, t) && t < |s.terms| && LinesRight(s) && s.current in s.procs && s.current < MAX_PROCS
    && pcb == Cur(s).(ttyId := t, io := Cur(s).io.(readLen := pcb.io.readLen))
    && (if e.EvResume? then pcb == Cur(s) else e.EvTtyRead? && pcb.io.readLen == e.len)
    && NextLine(Term(s, t), pcb).0.Some?
    && Step(s, e) == LineRead(s, pcb, t, NextLine(Term(s, t), pcb).0.value, NextLine(Term(s, t), pcb).1)
  }

  lemma LineReadFields(s: Kernel, pcb: Pcb, t: nat, line: Line, term: Terminal)
    requires t < |s.terms|
    ensures var s', n := LineRead(s, pcb, t, line, term), Min(|line.data| - line.pos, pcb.io.readLen);
      var rest := line.data[line.pos + n..];
      && s'.current == s.current && s'.queues == s.queues && s'.ready == s.ready
      && (forall p: Pid :: p != s.current ==> Proc(s', p) == Proc(s, p))
      && Cur(s').io.readLine.None? && Cur(s').cont.ToUser? && Cur(s').user.got == line.data[line.pos..line.pos + n] && Cur(s').user.result == n
      && (forall x: nat :: x != t ==> Term(s', x) == Term(s, x))
      && Term(s', t).inputQueue == term.inputQueue
      && Term(s', t).line == (if rest == [] then term.line else Some(Line(line.data, line.pos + n)))
  {
  }

  /** The line is found, and its rest left, where Takes says. */
  lemma TakenLine(term: Terminal, pcb: Pcb, lost: seq<Byte>, term': Terminal)
    requires NextLine(term, pcb).0.Some? && (term.line.Some? ==> LineLeft(term.line) != [])
    requires lost == if term.line.Some? && |LineLeft(pcb.io.readLine)| > pcb.io.readLen then LineLeft(term.line) else []
    requires var (found, left) := NextLine(term, pcb);
      var line := found.value;
      var n := Min(|line.data| - line.pos, pcb.io.readLen);
      && term'.inputQueue == left.inputQueue
      && term'.line == if line.data[line.pos + n..] == [] then left.line else Some(Line(line.data, line.pos + n))
    ensures var line := NextLine(term, pcb).0.value;
      Takes(LineLeft(pcb.io.readLine), LineLeft(term.line), QueuedLeft(term.inputQueue),
            line.data[line.pos..line.pos + Min(|line.data| - line.pos, pcb.io.readLen)], lost,
            LineLeft(term'.line), QueuedLeft(term'.inputQueue))
    ensures term'.line.Some? ==> LineLeft(term'.line) != []
  {
    hide QueuedLeft;
    QueueHead(term.inputQueue);
    var line := NextLine(term, pcb).0.value;
    var n := Min(|line.data| - line.pos, pcb.io.readLen);
    var got, rest := line.data[line.pos..line.pos + n], line.data[line.pos + n..];
    assert LineLeft(Some(line)) == got + rest;
    assert rest != [] ==> LineLeft(Some(Line(line.data, line.pos + n))) == rest;
  }

  /** What the reader has of its own, and what its read would replace. */
  lemma OwnLine(s: Kernel, e: Event, pcb: Pcb, t: nat)
    requires FindsLine(s, e, pcb, t)
    ensures Hand(s, s.current, t) == LineLeft(pcb.io.readLine)
    ensures LostBy(s, e, t) == if Term(s, t).line.Some? && |LineLeft(pcb.io.readLine)| > pcb.io.readLen then LineLeft(Term(s, t).line) else []
    ensures Term(s, t).line.Some? ==> LineLeft(Term(s, t).line) != []
  {
    hide Step, LineRead, NextLine;
  }

  lemma FindsShape(s: Kernel, e: Event, pcb: Pcb, t: nat)
    requires FindsLine(s, e, pcb, t)
    ensures Legal(s, e) && ReadsLine(s, e, t) && t < |s.terms| && NextLine(Term(s, t), pcb).0.Some?
    ensures Step(s, e) == LineRead(s, pcb, t, NextLine(Term(s, t), pcb).0.value, NextLine(Term(s, t), pcb).1)
  {
    hide Step, LineRead, NextLine, LinesRight, ReadsLine;
  }

  /** What the read leaves, in terms of the line it found. */
  lemma LineLeaves(s: Kernel, e: Event, pcb: Pcb, t: nat)
    requires FindsLine(s, e, pcb, t)
    ensures Legal(s, e) && t < |s.terms| && NextLine(Term(s, t), pcb).0.Some?
    ensures var s', (found, left) := Step(s, e), NextLine(Term(s, t), pcb);
      var line := found.value;
      var n := Min(|line.data| - line.pos, pcb.io.readLen);
      && DeliveredBy(s, e, t) == line.data[line.pos..line.pos + n] && s'.queues == s.queues
      && Term(s', t).inputQueue == left.inputQueue
      && Term(s', t).line == if line.data[line.pos + n..] == [] then left.line else Some(Line(line.data, line.pos + n))
  {
    FindsShape(s, e, pcb, t);
    hide Step, LineRead, NextLine, Term, Proc, Legal, ReadsLine, FindsLine, DeliveredBy;
    var (found, left) := NextLine(Term(s, t), pcb);
    LineReadFields(s, pcb, t, found.value, left);
    var line := found.value;
    Delivers(s, e, t, line.data[line.pos..line.pos + Min(|line.data| - line.pos, pcb.io.readLen)]);
  }

  /** The read takes from terminal t what Takes says. */
  lemma LineTaken(s: Kernel, e: Event, pcb: Pcb, t: nat)
    requires FindsLine(s, e, pcb, t)
    ensures Legal(s, e)
    ensures var s' := Step(s, e);
      && Takes(Hand(s, s.current, t), LineLeft(Term(s, t).line), QueuedLeft(Term(s, t).inputQueue), DeliveredBy(s, e, t), LostBy(s, e, t),
               LineLeft(Term(s', t).line), QueuedLeft(Term(s', t).inputQueue))
      && (Term(s', t).line.Some? ==> LineLeft(Term(s', t).line) != []) && s'.queues == s.queues
  {
    hide Step, QueuedLeft, LineRead, NextLine, Term, Proc, Hand, LostBy, LineLeft, Takes, Legal, ReadsLine,
      FindsLine, DeliveredBy;
    LineLeaves(s, e, pcb, t);
    OwnLine(s, e, pcb, t);
    TakenLine(Term(s, t), pcb, LostBy(s, e, t), Term(Step(s, e), t));
  }

  lemma Delivers(s: Kernel, e: Event, t: nat, got: seq<Byte>)
    requires Legal(s, e) && ReadsLine(s, e, t) && Step(s, e).current == s.current && Cur(Step(s, e)).cont.ToUser?
    requires Cur(Step(s, e)).user.got == got && Cur(Step(s, e)).user.result == |got|
    ensures DeliveredBy(s, e, t) == got
  {
    hide Step;
  }

  lemma LineElsewhere(s: Kernel, e: Event, pcb: Pcb, t: nat, u: nat)
    requires FindsLine(s, e, pcb, t)
    ensures var s' := Step(s, e);
      && (forall p: Pid :: p != s.current ==> Proc(s', p) == Proc(s, p))
      && Cur(s').io.readLine.None? && s'.current == s.current && s'.queues == s.queues && s'.ready == s.ready
      && (u != t ==> Term(s', u) == Term(s, u) && !ReadsLine(s, e, u) && Hand(s, s.current, u) == [])
  {
    hide Step, LineRead, Term;
    LineReadFields(s, pcb, t, NextLine(Term(s, t), pcb).0.value, NextLine(Term(s, t), pcb).1);
  }

  /** Nothing moves, and nothing comes. */
  lemma NothingStirs(s: Kernel, e: Event, t: nat, s': Kernel)
    requires Legal(s, e) && Stock(s', t) == Stock(s, t)
    requires DeliveredBy(s, e, t) == [] && LostBy(s, e, t) == [] && ReceivedBy(s, e, t) == []
    ensures Accounted(s, e, t, s')
  {
    hide Stock, DeliveredBy, LostBy, ReceivedBy;
  }

  lemma HandOfNone(s: Kernel, p: Pid, t: nat)
    requires Proc(s, p).io.readLine.None?
    ensures Hand(s, p, t) == []
  {
  }

  lemma LineReadHere(s: Kernel, e: Event, pcb: Pcb, t: nat)
    requires FindsLine(s, e, pcb, t)
    ensures Accounted(s, e, t, Step(s, e))
  {
    hide Step, Hands, QueuedLeft, LineLeft, Takes, Legal, Hand, FindsLine, DeliveredBy, LostBy, Term, Proc;
    FindsFacts(s, e, pcb, t);
    var s' := Step(s, e);
    LineTaken(s, e, pcb, t);
    LineElsewhere(s, e, pcb, t, t);
    HandOfNone(s', s.current, t);
    SameOthers(s, s', t);
    OneHand(s, s', t, MAX_PROCS, s.current);
    TakesBalances(Hands(s, t, MAX_PROCS), Hand(s, s.current, t), LineLeft(Term(s, t).line), QueuedLeft(Term(s, t).inputQueue),
                  DeliveredBy(s, e, t), LostBy(s, e, t),
                  Hands(s', t, MAX_PROCS), LineLeft(Term(s', t).line), QueuedLeft(Term(s', t).inputQueue));
    assert ReceivedBy(s, e, t) == [];
  }

  lemma FindsFacts(s: Kernel, e: Event, pcb: Pcb, t: nat)
    requires FindsLine(s, e, pcb, t)
    ensures Legal(s, e) && !e.EvReceive? && s.current < MAX_PROCS && LinesRight(s)
  {
    hide Step, Legal, LineRead, LinesRight;
  }

  lemma SameOthers(s: Kernel, s': Kernel, t: nat)
    requires forall p: Pid :: p != s.current ==> Proc(s', p) == Proc(s, p)
    ensures forall p: Pid :: p != s.current ==> Hand(s', p, t) == Hand(s, p, t)
  {
  }

  lemma LineReadElsewhere(s: Kernel, e: Event, pcb: Pcb, t: nat, u: nat)
    requires FindsLine(s, e, pcb, t) && u != t
    ensures Legal(s, e) && Accounted(s, e, u, Step(s, e))
    ensures Hands(Step(s, e), u, MAX_PROCS) == Hands(s, u, MAX_PROCS) && SameInput(s, Step(s, e), u)
    ensures DeliveredBy(s, e, u) == [] && ReceivedBy(s, e, u) == [] && SameEachHand(s, Step(s, e), u)
  {
    hide Step, Hands, QueuedLeft, LineLeft, Legal, Hand, FindsLine, Accounted, Term, Proc, ObjectTheorems.Answer;
    FindsFacts(s, e, pcb, t);
    var s' := Step(s, e);
    LineElsewhere(s, e, pcb, t, u);
    HandOfNone(s', s.current, u);
    SameOthers(s, s', u);
    SameHands(s, s', u, MAX_PROCS);
    NothingStirs(s, e, u, s');
  }

  lemma LineReadLines(s: Kernel, e: Event, pcb: Pcb, t: nat)
    requires FindsLine(s, e, pcb, t)
    ensures LinesRight(Step(s, e))
  {
    hide Step, Legal, FindsLine, Term, LineLeft, Takes, QueuedLeft, Hand;
    FindsFacts(s, e, pcb, t);
    var s' := Step(s, e);
    LineTaken(s, e, pcb, t);
    LineElsewhere(s, e, pcb, t, t);
    forall x: nat | Term(s', x).line.Some? ensures LineLeft(Term(s', x).line) != [] {
      LineElsewhere(s, e, pcb, t, x);
    }
  }

  /** The read that finds a line, told for every terminal. */
  lemma LineReadStep(s: Kernel, e: Event, pcb: Pcb, t: nat, u: nat)
    requires FindsLine(s, e, pcb, t)
    ensures Legal(s, e) && Accounted(s, e, u, Step(s, e)) && LinesRight(Step(s, e))
  {
    hide FindsLine, Accounted, LinesRight, Step, Legal;
    FindsFacts(s, e, pcb, t);
    LineReadLines(s, e, pcb, t);
    if u == t {
      LineReadHere(s, e, pcb, t);
    } else {
      LineReadElsewhere(s, e, pcb, t, u);
    }
  }

  lemma QueueHead(lines: seq<Line>)
    ensures lines != [] ==> QueuedLeft(lines) == LineLeft(Some(lines[0])) + QueuedLeft(lines[1..])
  {
  }

  /** The read that has to wait: its premises. */
  ghost predicate FindsNone(s: Kernel, e: Event, pcb: Pcb, t: nat) {
    && Legal(s, e) && Reads(s, e, t) && t < |s.terms|
    && pcb == Cur(s).(ttyId := t, io := Cur(s).io.(readLen := pcb.io.readLen))
    && NextLine(Term(s, t), pcb).0.None? && Step(s, e) == Schedule(Reading(s, pcb, t))
  }

  /** The read that has to wait. */
  lemma WaitingRead(s: Kernel, e: Event, pcb: Pcb, t: nat, u: nat)
    requires Inv(s) && LinesRight(s) && FindsNone(s, e, pcb, t)
    ensures Legal(s, e) && Accounted(s, e, u, Step(s, e)) && LinesRight(Step(s, e))
    ensures Hands(Step(s, e), u, MAX_PROCS) == Hands(s, u, MAX_PROCS) && SameEachHand(s, Step(s, e), u)
    ensures DeliveredBy(s, e, u) == [] && ReceivedBy(s, e, u) == []
  {
    hide Inv, Step, Isolated, Hands, Legal, Schedule, ZombiesRight, Touches, QueuedLeft, Reading, LinesRight,
      Accounted, LineLeft, ObjectTheorems.Answer;
    var s' := Step(s, e);
    ZombiesOf(s);
    StepIsolated(s, e);
    NoneInHand(s, pcb, t);
    WaitsAt(s, pcb, t);
    HandsKept(s, e, s', u);
    forall x: nat ensures Term(s', x) == Term(s, x) {
      SameTermAt(s, s', x);
    }
    SameLines(s, s');
    ReadsNothing(s, e, u);
    NothingStirs(s, e, u, s');
  }

  lemma NoneInHand(s: Kernel, pcb: Pcb, t: nat)
    requires pcb.io.readLine == Cur(s).io.readLine && NextLine(Term(s, t), pcb).0.None?
    ensures Cur(s).io.readLine.None?
  {
  }

  lemma SameTermAt(s: Kernel, s': Kernel, x: nat)
    requires s'.terms == s.terms
    ensures Term(s', x) == Term(s, x)
  {
  }

  /** A read that finds nothing changes no terminal, and its caller stays inside TtyRead. */
  lemma WaitsAt(s: Kernel, pcb: Pcb, t: nat)
    requires Inv(s)
    ensures var s' := Schedule(Reading(s, pcb, t)); s'.terms == s.terms && Proc(s', s.current).cont.InTtyRead?
    ensures forall x: nat :: Q(Schedule(Reading(s, pcb, t)), ReadQ(x)) == if x == t then Q(s, ReadQ(x)) + [s.current] else Q(s, ReadQ(x))
  {
    hide Inv, Schedule, Touches;
    var s1 := Reading(s, pcb, t);
    Pids(s);
    ScheduleTerms(s1);
    ScheduleTouches(s1, MAX_PROCS);
    StillReading(s1, Schedule(s1), s.current);
  }

  /** Nothing is delivered or lost by a reader that stays inside TtyRead. */
  lemma ReadsNothing(s: Kernel, e: Event, u: nat)
    requires Legal(s, e) && !e.EvReceive? && Cur(s).io.readLine.None? && Proc(Step(s, e), s.current).cont.InTtyRead?
    ensures DeliveredBy(s, e, u) == [] && LostBy(s, e, u) == [] && ReceivedBy(s, e, u) == []
  {
    hide Step, Legal;
  }

  lemma Pids(s: Kernel)
    requires Inv(s)
    ensures s.current in s.procs && forall p :: p in s.procs ==> p < MAX_PROCS
  {
  }

  lemma StillReading(s: Kernel, s': Kernel, c: Pid)
    requires Touches(s, s', MAX_PROCS, {}) && c in s.procs && c < MAX_PROCS && s.procs[c].cont.InTtyRead?
    ensures Proc(s', c).cont.InTtyRead?
  {
    assert WhollyKept(s.procs[c], s'.procs[c], s.clock);
  }

  /** A read call that is refused, or asks for nothing. */
  lemma NoRead(s: Kernel, e: Event, t: nat)
    requires Inv(s) && LinesRight(s) && Legal(s, e) && e.EvTtyRead?
    requires Step(s, e) == Return(s, ERROR) || Step(s, e) == Return(s, 0)
    ensures Accounted(s, e, t, Step(s, e)) && LinesRight(Step(s, e)) && SameInput(s, Step(s, e), t)
    ensures Hands(Step(s, e), t, MAX_PROCS) == Hands(s, t, MAX_PROCS) && SameEachHand(s, Step(s, e), t)
    ensures DeliveredBy(s, e, t) == [] && ReceivedBy(s, e, t) == []
  {
    hide Inv, Step, Isolated, Hands, ZombiesRight, QueuedLeft, LinesRight, Accounted, LineLeft, Legal;
    var s' := Step(s, e);
    ZombiesOf(s);
    StepIsolated(s, e);
    NotReading(s, e);
    HandsKept(s, e, s', t);
    forall x: nat ensures Term(s', x) == Term(s, x) {
      SameTermAt(s, s', x);
    }
    SameLines(s, s');
    NothingStirs(s, e, t, s');
  }

  /** A read finds a line, has to wait, or is refused. */
  lemma ReadCases(s: Kernel, e: Event) returns (pcb: Pcb, t: nat)
    requires Inv(s) && LinesRight(s) && Legal(s, e) && (e.EvTtyRead? || (e.EvResume? && Cur(s).cont.InTtyRead?))
    ensures
      || FindsLine(s, e, pcb, t)
      || FindsNone(s, e, pcb, t)
      || (e.EvTtyRead? && (forall x: nat :: !Reads(s, e, x)) && (Step(s, e) == Return(s, ERROR) || Step(s, e) == Return(s, 0)))
  {
    hide Inv, LinesRight, TtyReadLoop, Finish, Schedule, LineRead, Reading, TtyInv;
    Pids(s);
    pcb, t := Cur(s), Cur(s).ttyId;
    if e.EvResume? {
      TtyOf(s);
      assert s.procs[s.current := Cur(s)] == s.procs;
      TtyReadLoopIs(s, pcb, t);
    } else if 0 <= e.tty < |s.terms| && e.len > 0 && !e.nullBuf && s.current != s.idle {
      t, pcb := e.tty, Cur(s).(ttyId := e.tty, io := Cur(s).io.(readLen := e.len));
      TtyReadLoopIs(s, pcb, t);
    }
  }

  lemma ReadStep(s: Kernel, e: Event, u: nat)
    requires Inv(s) && LinesRight(s) && Legal(s, e) && (e.EvTtyRead? || (e.EvResume? && Cur(s).cont.InTtyRead?))
    ensures Accounted(s, e, u, Step(s, e)) && LinesRight(Step(s, e))
  {
    hide Inv, LinesRight, Accounted, Step, Legal, FindsLine, ReadsLine, Return;
    var pcb, t := ReadCases(s, e);
    if FindsLine(s, e, pcb, t) {
      LineReadStep(s, e, pcb, t, u);
    } else if FindsNone(s, e, pcb, t) {
      WaitingRead(s, e, pcb, t, u);
    } else {
      NoRead(s, e, u);
    }
  }

  lemma TtyOf(s: Kernel)
    requires Inv(s) && Cur(s).cont.InTtyRead?
    ensures Cur(s).ttyId < |s.terms|
  {
    hide PlaceInv, LockInv, PipeInv, FamilyInv, TtyInv;
    Pids(s);
    ConsoleOf(s);
  }

  // ---------- receiving ----------

  lemma ReaderReady(s: Kernel, t: nat)
    requires Inv(s) && Q(s, ReadQ(t)) != [] && t < |s.terms|
    ensures var pcb := Proc(s, Q(s, ReadQ(t))[0]); pcb.cont.InTtyRead? && pcb.ttyId == t && pcb.io.readLine.None?
  {
    hide PlaceInv, LockInv, PipeInv, FamilyInv, TtyInv, WriterRight, StreamRight;
    TtyProofs.TerminalOf(s, t);
    HeadIn(Q(s, ReadQ(t)));
  }

  lemma ReceiveQueues(s: Kernel, t: nat, data: seq<Byte>, u: nat)
    ensures Q(TrapReceive(s, t, data, true), ReadQ(u)) ==
      if u == t && t < |s.terms| && Q(s, ReadQ(u)) != [] then Q(s, ReadQ(u))[1..] else Q(s, ReadQ(u))
  {
  }

  /** What a receive trap for terminal t leaves alone. */
  lemma ReceiveFacts(s: Kernel, e: Event, u: nat)
    requires Inv(s) && LinesRight(s) && Legal(s, e) && e.EvReceive? && 0 <= e.tty < |s.terms| && e.ok
    ensures var s' := Step(s, e);
      && Term(s', u).line == Term(s, u).line
      && Term(s', u).inputQueue == (if u == e.tty && Q(s, ReadQ(u)) == [] then Term(s, u).inputQueue + [Line(e.data, 0)] else Term(s, u).inputQueue)
      && Touches(WithLine(s, e.tty, e.data), s', MAX_PROCS, {})
      && Q(s', ReadQ(u)) == (if u == e.tty && Q(s, ReadQ(u)) != [] then Q(s, ReadQ(u))[1..] else Q(s, ReadQ(u)))
  {
    hide Inv, TrapReceive, Touches, LinesRight;
    FirstReader(s, e.tty);
    TrapReceiveTouches(s, e.tty, e.data, MAX_PROCS);
    ReceiveQueues(s, e.tty, e.data, u);
  }

  lemma NothingRead(s: Kernel, e: Event, t: nat)
    requires Legal(s, e) && e.EvReceive?
    ensures DeliveredBy(s, e, t) == [] && LostBy(s, e, t) == [] && ReceivedBy(s, e, t) == if e.ok && e.tty == t && t < |s.terms| then e.data else []
  {
    hide Step, Legal;
  }

  lemma InHand(s: Kernel)
    requires LinesRight(s)
    ensures forall p :: Proc(s, p).io.readLine.Some? ==> Proc(s, p).cont.InTtyRead?
  {
  }

  /** The line goes to the input queue: nobody's hand changes. */
  lemma ReceiveQueued(s: Kernel, e: Event, u: nat)
    requires Inv(s) && LinesRight(s) && Legal(s, e) && e.EvReceive? && 0 <= e.tty < |s.terms| && e.ok && Q(s, ReadQ(e.tty)) == []
    ensures Hands(Step(s, e), u, MAX_PROCS) == Hands(s, u, MAX_PROCS) && SameEachHand(s, Step(s, e), u)
    ensures forall p :: Proc(Step(s, e), p).io.readLine.Some? ==> Proc(Step(s, e), p).cont.InTtyRead?
  {
    hide Inv, Step, Touches, Legal, LinesRight;
    ReceiveFacts(s, e, u);
    Pids(s);
    InHand(s);
    HandsLike(s, Step(s, e), u);
  }

  /** The line goes to the first reader of the queue. */
  lemma ReceiveHanded(s: Kernel, e: Event, u: nat)
    requires Inv(s) && LinesRight(s) && Legal(s, e) && e.EvReceive? && 0 <= e.tty < |s.terms| && e.ok && Q(s, ReadQ(e.tty)) != []
    ensures var s', s1 := Step(s, e), WithLine(s, e.tty, e.data);
      && Hands(s', u, MAX_PROCS) == Hands(s1, u, MAX_PROCS) && SameEachHand(s1, s', u)
      && (forall p :: Proc(s', p).io.readLine.Some? ==> Proc(s', p).cont.InTtyRead?)
    ensures var r, s1 := Q(s, ReadQ(e.tty))[0], WithLine(s, e.tty, e.data);
      && r < MAX_PROCS && Hand(s, r, u) == [] && Hand(s1, r, u) == (if u == e.tty then e.data else [])
      && forall p: Pid :: p != r ==> Hand(s1, p, u) == Hand(s, p, u)
  {
    hide Inv, Step, Touches, Legal, Hands, Q;
    ReceiveFacts(s, e, u);
    FirstReader(s, e.tty);
    Pids(s);
    ReaderReady(s, e.tty);
    var r, s1 := Q(s, ReadQ(e.tty))[0], WithLine(s, e.tty, e.data);
    forall p ensures Proc(s1, p).io.readLine.Some? ==> Proc(s1, p).cont.InTtyRead? {
      assert p != r ==> Proc(s1, p) == Proc(s, p);
    }
    assert LineLeft(Some(Line(e.data, 0))) == e.data;
    HandsLike(s1, Step(s, e), u);
  }

  lemma SameLines(s: Kernel, s': Kernel)
    requires LinesRight(s) && (forall x: nat :: Term(s', x).line == Term(s, x).line)
    requires forall p :: Proc(s', p).io.readLine.Some? ==> Proc(s', p).cont.InTtyRead?
    ensures LinesRight(s')
  {
    hide Term, LineLeft;
  }

  /** More bytes in one place, and everything else where it was. */
  lemma OneMore(h: seq<Byte>, left: seq<Byte>, queue: seq<Byte>, h': seq<Byte>, queue': seq<Byte>, data: seq<Byte>)
    requires (h' == h && queue' == queue + data) || (queue' == queue && multiset(h') + multiset([]) == multiset(h) + multiset(data))
    ensures multiset(h' + left + queue') + multiset([]) + multiset([]) == multiset(h + left + queue) + multiset(data)
  {
    forall x ensures multiset(h' + left + queue')[x] == (multiset(h + left + queue) + multiset(data))[x] {
      assert queue' == queue ==> (multiset(h') + multiset([]))[x] == (multiset(h) + multiset(data))[x];
    }
  }

  lemma ReceiveStep(s: Kernel, e: Event, u: nat)
    requires Inv(s) && LinesRight(s) && Legal(s, e) && e.EvReceive?
    ensures Accounted(s, e, u, Step(s, e)) && LinesRight(Step(s, e))
  {
    hide Inv, Step, Legal, LinesRight, Touches, Hands, Hand, QueuedLeft, LineLeft, Term, Q, Proc, DeliveredBy,
      LostBy, ReceivedBy, WithLine;
    var s', t := Step(s, e), e.tty;
    NothingRead(s, e, u);
    if 0 <= t < |s.terms| && e.ok {
      forall x: nat ensures Term(s', x).line == Term(s, x).line {
        ReceiveFacts(s, e, x);
      }
      ReceiveFacts(s, e, u);
      var left, queue := LineLeft(Term(s, u).line), QueuedLeft(Term(s, u).inputQueue);
      if Q(s, ReadQ(t)) == [] {
        ReceiveQueued(s, e, u);
        QueuedAppend(Term(s, u).inputQueue, Line(e.data, 0));
        FreshLine(e.data);
        assert QueuedLeft(Term(s', u).inputQueue) == queue + ReceivedBy(s, e, u);
      } else {
        ReceiveHanded(s, e, u);
        OneHand(s, WithLine(s, t, e.data), u, MAX_PROCS, Q(s, ReadQ(t))[0]);
      }
      SameLines(s, s');
      OneMore(Hands(s, u, MAX_PROCS), left, queue, Hands(s', u, MAX_PROCS), QueuedLeft(Term(s', u).inputQueue), ReceivedBy(s, e, u));
    } else {
      StepIgnored(s, e);
      NothingStirs(s, e, u, s');
    }
  }

  lemma FreshLine(data: seq<Byte>)
    ensures LineLeft(Some(Line(data, 0))) == data
  {
  }

  lemma HandsLike(s: Kernel, s': Kernel, t: nat)
    requires Touches(s, s', MAX_PROCS, {}) && (forall p :: p in s.procs ==> p < MAX_PROCS)
    requires forall p :: Proc(s, p).io.readLine.Some? ==> Proc(s, p).cont.InTtyRead?
    ensures Hands(s', t, MAX_PROCS) == Hands(s, t, MAX_PROCS) && SameEachHand(s, s', t)
    ensures forall p :: Proc(s', p).io.readLine.Some? ==> Proc(s', p).cont.InTtyRead?
  {
    hide ObjectKept;
    forall p ensures Hand(s', p, t) == Hand(s, p, t) && (Proc(s', p).io.readLine.Some? ==> Proc(s', p).cont.InTtyRead?) {
      if p in s.procs {
        assert WhollyKept(s.procs[p], s'.procs[p], s.clock);
      }
    }
    SameHands(s, s', t, MAX_PROCS);
  }

  // ---------- whole runs ----------

  lemma InputStep(s: Kernel, e: Event, t: nat)
    requires Inv(s) && LinesRight(s) && Legal(s, e)
    ensures Accounted(s, e, t, Step(s, e)) && LinesRight(Step(s, e)) && Inv(Step(s, e))
  {
    hide Inv, LinesRight, Accounted, Step, Legal, Stepped;
    StepKept(s, e);
    if e.EvReceive? {
      ReceiveStep(s, e, t);
    } else if e.EvTtyRead? || (e.EvResume? && Cur(s).cont.InTtyRead?) {
      ReadStep(s, e, t);
    } else {
      OtherStep(s, e, t);
      OtherLines(s, e);
    }
  }

  lemma OtherLines(s: Kernel, e: Event)
    requires Inv(s) && LinesRight(s) && Legal(s, e) && !e.EvReceive? && !e.EvTtyRead? && !(e.EvResume? && Cur(s).cont.InTtyRead?)
    ensures LinesRight(Step(s, e))
  {
    hide Inv, Accounted, Step, Legal;
    OtherStep(s, e, 0);
    forall t: nat | Term(Step(s, e), t).line.Some? ensures LineLeft(Term(Step(s, e), t).line) != [] {
      OtherStep(s, e, t);
    }
  }

  function ReceivedIn(s: Kernel, es: seq<Event>, t: nat): seq<Byte>
    requires LegalRun(s, es)
    decreases |es|
  {
    if es == [] then [] else ReceivedBy(s, es[0], t) + ReceivedIn(Step(s, es[0]), es[1..], t)
  }

  function DeliveredIn(s: Kernel, es: seq<Event>, t: nat): seq<Byte>
    requires LegalRun(s, es)
    decreases |es|
  {
    if es == [] then [] else DeliveredBy(s, es[0], t) + DeliveredIn(Step(s, es[0]), es[1..], t)
  }

  /** The bytes of the leftover lines that readers of the run replace. */
  function LostIn(s: Kernel, es: seq<Event>, t: nat): seq<Byte>
    requires LegalRun(s, es)
    decreases |es|
  {
    if es == [] then [] else LostBy(s, es[0], t) + LostIn(Step(s, es[0]), es[1..], t)
  }

  /** Some reader of the run replaces a leftover line of terminal t. */
  predicate SomeOverwrite(s: Kernel, es: seq<Event>, t: nat)
    requires LegalRun(s, es)
    decreases |es|
  {
    es != [] && (Overwrites(s, es[0], t) || SomeOverwrite(Step(s, es[0]), es[1..], t))
  }

  /**
   * Every byte a terminal received is delivered, still in the kernel or in a leftover line that was replaced; so
   * nothing is missing exactly if no reader ever replaced a leftover line.
   */
  lemma {:induction false} InputConservedIff(s: Kernel, es: seq<Event>, t: nat)
    requires Inv(s) && LinesRight(s) && LegalRun(s, es)
    ensures multiset(Stock(Run(s, es), t)) + multiset(DeliveredIn(s, es, t)) + multiset(LostIn(s, es, t))
         == multiset(Stock(s, t)) + multiset(ReceivedIn(s, es, t))
    ensures multiset(Stock(Run(s, es), t)) + multiset(DeliveredIn(s, es, t)) == multiset(Stock(s, t)) + multiset(ReceivedIn(s, es, t))
      <==> !SomeOverwrite(s, es, t)
    decreases |es|
  {
    if es != [] {
      var s1, rest := Step(s, es[0]), es[1..];
      LossIsReal(s, es[0], t);
      hide Inv, LinesRight, Step, Legal, Stock, DeliveredBy, LostBy, ReceivedBy, Overwrites;
      InputStep(s, es[0], t);
      InputConservedIff(s1, rest, t);
      Together(multiset(Stock(s, t)), multiset(ReceivedBy(s, es[0], t)), multiset(DeliveredBy(s, es[0], t)), multiset(LostBy(s, es[0], t)),
               multiset(Stock(s1, t)), multiset(ReceivedIn(s1, rest, t)), multiset(DeliveredIn(s1, rest, t)), multiset(LostIn(s1, rest, t)),
               multiset(Stock(Run(s, es), t)));
    }
    LostNothing(s, es, t);
    NothingMissing(multiset(Stock(Run(s, es), t)) + multiset(DeliveredIn(s, es, t)), multiset(LostIn(s, es, t)),
                   multiset(Stock(s, t)) + multiset(ReceivedIn(s, es, t)));
  }

  lemma Together(a: multiset<Byte>, r: multiset<Byte>, d: multiset<Byte>, l: multiset<Byte>,
                 a1: multiset<Byte>, r1: multiset<Byte>, d1: multiset<Byte>, l1: multiset<Byte>, a2: multiset<Byte>)
    requires a1 + d + l == a + r && a2 + d1 + l1 == a1 + r1
    ensures a2 + (d + d1) + (l + l1) == a + (r + r1)
  {
    forall x ensures (a2 + (d + d1) + (l + l1))[x] == (a + (r + r1))[x] {
      assert (a1 + d + l)[x] == (a + r)[x] && (a2 + d1 + l1)[x] == (a1 + r1)[x];
    }
  }

  lemma NothingMissing(a: multiset<Byte>, l: multiset<Byte>, b: multiset<Byte>)
    requires a + l == b
    ensures a == b <==> l == multiset{}
  {
    assert |b| == |a| + |l|;
  }

  lemma {:induction false} LostNothing(s: Kernel, es: seq<Event>, t: nat)
    requires Inv(s) && LinesRight(s) && LegalRun(s, es)
    ensures multiset(LostIn(s, es, t)) == multiset{} <==> !SomeOverwrite(s, es, t)
    decreases |es|
  {
    if es != [] {
      LossIsReal(s, es[0], t);
      hide Inv, LinesRight, Step, Legal, LostBy, Overwrites;
      InputStep(s, es[0], t);
      LostNothing(Step(s, es[0]), es[1..], t);
      var now, later := LostBy(s, es[0], t), LostIn(Step(s, es[0]), es[1..], t);
      assert |multiset(now + later)| == |now| + |later| && |multiset(later)| == |later|;
    }
  }

  lemma LossIsReal(s: Kernel, e: Event, t: nat)
    requires LinesRight(s)
    ensures LostBy(s, e, t) != [] <==> Overwrites(s, e, t)
  {
  }

  lemma BootLines(s: Kernel, t: nat)
    requires Booted(s)
    ensures LinesRight(s) && Stock(s, t) == []
  {
    forall p ensures Hand(s, p, t) == [] {
    }
    OnlyHand(s, t, MAX_PROCS, 0);
  }

  /** From boot: what was delivered and what is left is what was received, exactly if no reader replaced a leftover line. */
  lemma InputOfRun(s: Kernel, es: seq<Event>, t: nat)
    requires Booted(s) && LegalRun(s, es)
    ensures multiset(DeliveredIn(s, es, t)) + multiset(Stock(Run(s, es), t)) == multiset(ReceivedIn(s, es, t)) <==> !SomeOverwrite(s, es, t)
  {
    hide Inv, LegalRun, Run, Booted, LinesRight, Stock, DeliveredIn, ReceivedIn, SomeOverwrite;
    BootInv(s);
    BootLines(s, t);
    InputConservedIff(s, es, t);
    assert multiset(Stock(s, t)) == multiset{};
    assert multiset{} + multiset(ReceivedIn(s, es, t)) == multiset(ReceivedIn(s, es, t));
    assert multiset(Stock(Run(s, es), t)) + multiset(DeliveredIn(s, es, t)) == multiset(DeliveredIn(s, es, t)) + multiset(Stock(Run(s, es), t));
  }
}
