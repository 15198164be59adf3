/**
 * The order of terminal input, for any number of readers. A read is out of turn if it uses its own line while a
 * leftover line exists, or takes a line from the input queue while another reader has bytes in hand. In a run
 * without such a step the bytes are delivered in the order they were received; a run with one delivers a byte
 * before an older one.
 */
module InputOrder {
  import opened Common
  import opened KernelState
  import opened KernelSteps
  import opened KernelInvariants
  import TtyProofs
  import TtyCallProofs
  import opened StepFrames
  import StepTheorems
  import RunTheorems
  import opened InputTheorems

  // ---------- the bytes in the order of their turns ----------

  /** The bytes of terminal t the processes ps have in hand, one after the other. */
  function InHands(s: Kernel, ps: seq<Pid>, t: nat): seq<Byte> {
    if ps == [] then [] else Hand(s, ps[0], t) + InHands(s, ps[1..], t)
  }

  /** The leftover line, what the readers have in hand in the order they are to run, and the input queue. */
  function InTurn(s: Kernel, t: nat): seq<Byte> {
    LineLeft(Term(s, t).line) + InHands(s, [s.current] + s.ready, t) + QueuedLeft(Term(s, t).inputQueue)
  }

  /** Whoever has bytes in hand is running or in the ready queue. */
  ghost predicate HoldersFound(s: Kernel, t: nat) {
    forall p: Pid :: Hand(s, p, t) != [] ==> p == s.current || p in s.ready
  }

  /** Another process has bytes of terminal t in hand. */
  ghost predicate OtherHolder(s: Kernel, t: nat) {
    exists p: Pid :: p != s.current && Hand(s, p, t) != []
  }

  /** The caller reads bytes that are not the oldest there are. */
  ghost predicate OutOfTurn(s: Kernel, e: Event, t: nat) {
    && Reads(s, e, t)
    && var own, term := Cur(s).io.readLine, Term(s, t);
       if own.Some? then LineLeft(own) != [] && term.line.Some?
       else term.line.None? && term.inputQueue != [] && LineLeft(Some(term.inputQueue[0])) != [] && OtherHolder(s, t)
  }

  lemma {:induction false} InHandsAppend(s: Kernel, ps: seq<Pid>, qs: seq<Pid>, t: nat)
    ensures InHands(s, ps + qs, t) == InHands(s, ps, t) + InHands(s, qs, t)
  {
    hide Hand;
    if ps == [] {
      assert ps + qs == qs;
    } else {
      assert (ps + qs)[1..] == ps[1..] + qs;
      InHandsAppend(s, ps[1..], qs, t);
    }
  }

  lemma {:induction false} InHandsSame(s: Kernel, s': Kernel, ps: seq<Pid>, t: nat)
    requires forall p :: p in ps ==> Hand(s', p, t) == Hand(s, p, t)
    ensures InHands(s', ps, t) == InHands(s, ps, t)
  {
    hide Hand;
    if ps != [] {
      InHandsSame(s, s', ps[1..], t);
    }
  }

  lemma {:induction false} InHandsNone(s: Kernel, ps: seq<Pid>, t: nat)
    requires forall p :: p in ps ==> Hand(s, p, t) == []
    ensures InHands(s, ps, t) == []
  {
    hide Hand;
    if ps != [] {
      InHandsNone(s, ps[1..], t);
    }
  }

  lemma {:induction false} InHandsSome(s: Kernel, ps: seq<Pid>, p: Pid, t: nat)
    requires p in ps && Hand(s, p, t) != []
    ensures InHands(s, ps, t) != []
  {
    hide Hand;
    if ps[0] != p {
      InHandsSome(s, ps[1..], p, t);
    }
  }

  lemma OneInHand(s: Kernel, p: Pid, t: nat)
    ensures InHands(s, [p], t) == Hand(s, p, t)
  {
    assert [p][1..] == [];
  }

  /** The running process first, then the others. */
  lemma CurrentFirst(s: Kernel, t: nat)
    ensures InHands(s, [s.current] + s.ready, t) == Hand(s, s.current, t) + InHands(s, s.ready, t)
  {
    OneInHand(s, s.current, t);
    InHandsAppend(s, [s.current], s.ready, t);
  }

  /** What a step does to current process and ready queue if it reads nothing: the queue only moves up. */
  ghost predicate MovesUp(s: Kernel, s': Kernel) {
    || (s'.current == s.current && s.ready <= s'.ready)
    || (s.ready != [] && s'.current == s.ready[0] && s.ready[1..] <= s'.ready)
    || s.ready == []
  }

  /** Nobody is in the ready queue twice, or there and running. */
  ghost predicate OnceReady(s: Kernel) {
    Unique(s.ready) && s.current !in s.ready
  }

  /** Scheduling does not change the order of the readers. */
  lemma TurnsKept(s: Kernel, s': Kernel, t: nat)
    requires HoldersFound(s, t) && Hand(s, s.current, t) == [] && SameEachHand(s, s', t)
    requires MovesUp(s, s') && OnceReady(s) && OnceReady(s')
    ensures InHands(s', [s'.current] + s'.ready, t) == InHands(s, [s.current] + s.ready, t) && HoldersFound(s', t)
  {
    hide Hand, InHands, Unique;
    CurrentFirst(s, t);
    CurrentFirst(s', t);
    if s.ready == [] {
      InHandsNone(s, s.ready, t);
      InHandsNone(s', s'.ready, t);
    } else if s'.current == s.current && s.ready <= s'.ready {
      MoreReady(s, s', s.ready, t);
    } else {
      MoreReady(s, s', s.ready[1..], t);
      CurrentNext(s, t);
    }
  }

  lemma CurrentNext(s: Kernel, t: nat)
    requires s.ready != []
    ensures InHands(s, s.ready, t) == Hand(s, s.ready[0], t) + InHands(s, s.ready[1..], t)
  {
  }

  /** Who joins the ready queue has nothing in hand. */
  lemma MoreReady(s: Kernel, s': Kernel, ps: seq<Pid>, t: nat)
    requires HoldersFound(s, t) && Hand(s, s.current, t) == [] && SameEachHand(s, s', t) && OnceReady(s) && OnceReady(s')
    requires ps <= s'.ready && (forall p :: p in s.ready ==> p in ps || p == s'.current)
    ensures InHands(s', s'.ready, t) == InHands(s, ps, t)
  {
    hide Hand;
    var more := s'.ready[|ps|..];
    assert s'.ready == ps + more;
    forall p | p in more ensures Hand(s', p, t) == [] {
      var i :| 0 <= i < |more| && more[i] == p;
      assert s'.ready[|ps| + i] == p;
      assert p !in ps && p in s'.ready;
    }
    InHandsAppend(s', ps, more, t);
    InHandsNone(s', more, t);
    InHandsSame(s, s', ps, t);
  }

  // ---------- one step ----------

  /** What is delivered comes from the front, what is received goes to the end. */
  ghost predicate InLine(s: Kernel, e: Event, t: nat, s': Kernel)
    requires Legal(s, e)
  {
    DeliveredBy(s, e, t) + InTurn(s', t) == InTurn(s, t) + ReceivedBy(s, e, t)
  }

  /** What is delivered begins with a byte that has an older one before it. */
  ghost predicate JumpsLine(s: Kernel, e: Event, t: nat)
    requires Legal(s, e)
  {
    && DeliveredBy(s, e, t) != [] && ReceivedBy(s, e, t) == []
    && exists k :: 0 < k < |InTurn(s, t)| && InTurn(s, t)[k] == DeliveredBy(s, e, t)[0]
  }

  lemma ReadyMovesUp(s: Kernel, e: Event)
    requires Inv(s) && Legal(s, e)
    ensures MovesUp(s, Step(s, e)) && OnceReady(s) && OnceReady(Step(s, e))
  {
    hide Inv, Step, Legal, Lost, RunTheorems.Reschedules;
    RunTheorems.StepKept(s, e);
    QueueingOf(s);
    QueueingOf(Step(s, e));
  }

  lemma QueueingOf(s: Kernel)
    requires Inv(s)
    ensures OnceReady(s)
  {
    hide LockInv, PipeInv, FamilyInv, TtyInv, QueuesAgree, WritersAgree, RunningAgrees, ParksAgree;
  }

  /** A step that delivers and receives nothing at terminal t and changes nobody's hand. */
  lemma NoStir(s: Kernel, e: Event, t: nat)
    requires Inv(s) && Legal(s, e) && HoldersFound(s, t) && Hand(s, s.current, t) == []
    requires Term(Step(s, e), t).line == Term(s, t).line && Term(Step(s, e), t).inputQueue == Term(s, t).inputQueue
    requires SameEachHand(s, Step(s, e), t) && DeliveredBy(s, e, t) == [] && ReceivedBy(s, e, t) == []
    ensures InLine(s, e, t, Step(s, e)) && HoldersFound(Step(s, e), t)
  {
    hide Inv, Step, Legal, Hand, HoldersFound, SameEachHand, MovesUp, OnceReady, DeliveredBy, ReceivedBy;
    ReadyMovesUp(s, e);
    TurnsKept(s, Step(s, e), t);
    assert [] + InTurn(Step(s, e), t) == InTurn(Step(s, e), t) && InTurn(s, t) + [] == InTurn(s, t);
  }

  // ---------- reading ----------

  /** The line a read uses, and what is there when it has used it. */
  ghost predicate TakesFrom(term: Terminal, pcb: Pcb, got: seq<Byte>, term': Terminal) {
    var own, left, queue := LineLeft(pcb.io.readLine), LineLeft(term.line), QueuedLeft(term.inputQueue);
    var left', queue' := LineLeft(term'.line), QueuedLeft(term'.inputQueue);
    if pcb.io.readLine.Some? then
      && queue' == queue && (own != [] ==> got != [])
      && exists rest :: own == got + rest && left' == if rest == [] then left else rest
    else if term.line.Some? then left == got + left' && queue' == queue
    else
      && queue == got + left' + queue' && term.inputQueue != []
      && LineLeft(Some(term.inputQueue[0])) == got + left' && (got + left' != [] ==> got != [])
  }

  lemma TakesFromLine(term: Terminal, pcb: Pcb, got: seq<Byte>, term': Terminal)
    requires NextLine(term, pcb).0.Some? && pcb.io.readLen > 0
    requires var (found, left) := NextLine(term, pcb);
      var line := found.value;
      var n := Min(|line.data| - line.pos, pcb.io.readLen);
      && got == line.data[line.pos..line.pos + n] && term'.inputQueue == left.inputQueue
      && term'.line == if line.data[line.pos + n..] == [] then left.line else Some(Line(line.data, line.pos + n))
    ensures TakesFrom(term, pcb, got, term')
  {
    hide QueuedLeft;
    QueueHead(term.inputQueue);
    var line := NextLine(term, pcb).0.value;
    var n := Min(|line.data| - line.pos, pcb.io.readLen);
    var rest := line.data[line.pos + n..];
    assert LineLeft(Some(line)) == got + rest;
    assert rest != [] ==> LineLeft(Some(Line(line.data, line.pos + n))) == rest;
  }

  /** The facts of a read that finds a line. */
  lemma ReadFacts(s: Kernel, e: Event, pcb: Pcb, t: nat)
    requires Inv(s) && FindsLine(s, e, pcb, t)
    ensures Legal(s, e) && pcb.io.readLen > 0 && Reads(s, e, t) && !e.EvReceive? && pcb.io.readLine == Cur(s).io.readLine
    ensures TakesFrom(Term(s, t), pcb, DeliveredBy(s, e, t), Term(Step(s, e), t))
    ensures Hand(s, s.current, t) == LineLeft(pcb.io.readLine)
    ensures ReceivedBy(s, e, t) == []
  {
    hide Inv, Step, FindsLine, NextLine, TakesFrom, DeliveredBy, TtyCallProofs.LineRead, Legal;
    FindsAsks(s, e, pcb, t);
    LineLeaves(s, e, pcb, t);
    OwnLine(s, e, pcb, t);
    TakesFromLine(Term(s, t), pcb, DeliveredBy(s, e, t), Term(Step(s, e), t));
  }

  /** A read that finds a line asked for some bytes. */
  lemma FindsAsks(s: Kernel, e: Event, pcb: Pcb, t: nat)
    requires Inv(s) && FindsLine(s, e, pcb, t)
    ensures pcb.io.readLen > 0 && Reads(s, e, t) && !e.EvReceive? && pcb.io.readLine == Cur(s).io.readLine
  {
    hide Inv, LinesRight, NextLine, TtyCallProofs.LineRead, Step;
    CallerAsks(s);
  }

  lemma CallerAsks(s: Kernel)
    requires Inv(s)
    ensures Cur(s).cont.InTtyRead? ==> Cur(s).io.readLen > 0
  {
    hide PlaceInv, LockInv, PipeInv, FamilyInv, TtyInv;
    Pids(s);
    TtyCallProofs.ConsoleOf(s);
  }

  /** After the read the reader's hands are empty, and everybody else's are what they were. */
  lemma AfterRead(s: Kernel, e: Event, pcb: Pcb, t: nat)
    requires FindsLine(s, e, pcb, t) && HoldersFound(s, t)
    ensures Legal(s, e) && HoldersFound(Step(s, e), t)
    ensures InHands(Step(s, e), [Step(s, e).current] + Step(s, e).ready, t) == InHands(s, s.ready, t) || s.current in s.ready
  {
    hide Step, FindsLine, Hand, Legal, Term, Proc;
    FindsFacts(s, e, pcb, t);
    var s' := Step(s, e);
    LineElsewhere(s, e, pcb, t, t);
    SameOthers(s, s', t);
    HandOfNone(s', s.current, t);
    CurrentFirst(s', t);
    if s.current !in s.ready {
      InHandsSame(s, s', s.ready, t);
    }
  }

  /** A read in its turn takes from the front. */
  lemma TakesInLine(term: Terminal, pcb: Pcb, got: seq<Byte>, term': Terminal, hands: seq<Byte>)
    requires TakesFrom(term, pcb, got, term')
    requires pcb.io.readLine.Some? ==> LineLeft(pcb.io.readLine) == [] || term.line.None?
    requires pcb.io.readLine.None? && term.line.None? && term.inputQueue != [] ==>
      LineLeft(Some(term.inputQueue[0])) == [] || hands == []
    ensures got + (LineLeft(term'.line) + hands + QueuedLeft(term'.inputQueue))
         == LineLeft(term.line) + (LineLeft(pcb.io.readLine) + hands) + QueuedLeft(term.inputQueue)
  {
    hide QueuedLeft;
  }

  /** A read out of turn takes a byte that has another before it. */
  lemma TakesJumping(term: Terminal, pcb: Pcb, got: seq<Byte>, term': Terminal, hands: seq<Byte>)
    requires TakesFrom(term, pcb, got, term') && (term.line.Some? ==> LineLeft(term.line) != [])
    requires if pcb.io.readLine.Some? then LineLeft(pcb.io.readLine) != [] && term.line.Some?
             else term.line.None? && term.inputQueue != [] && LineLeft(Some(term.inputQueue[0])) != [] && hands != []
    ensures var turn := LineLeft(term.line) + (LineLeft(pcb.io.readLine) + hands) + QueuedLeft(term.inputQueue);
      got != [] && exists k :: 0 < k < |turn| && turn[k] == got[0]
  {
    hide QueuedLeft;
    var left, own := LineLeft(term.line), LineLeft(pcb.io.readLine);
    var turn := left + (own + hands) + QueuedLeft(term.inputQueue);
    if pcb.io.readLine.Some? {
      assert turn[|left|] == own[0] == got[0];
    } else {
      assert turn[|hands|] == QueuedLeft(term.inputQueue)[0] == got[0];
    }
  }

  lemma ReadInTurn(s: Kernel, e: Event, pcb: Pcb, t: nat)
    requires Inv(s) && HoldersFound(s, t) && FindsLine(s, e, pcb, t)
    ensures Legal(s, e) && HoldersFound(Step(s, e), t)
    ensures if OutOfTurn(s, e, t) then JumpsLine(s, e, t) else InLine(s, e, t, Step(s, e))
  {
    hide Inv, Step, FindsLine, Hand, Legal, Term, TakesFrom, DeliveredBy, ReceivedBy, LineLeft, QueuedLeft,
      HoldersFound, Reads, LinesRight;
    ReadFacts(s, e, pcb, t);
    FindsFacts(s, e, pcb, t);
    ReadyMovesUp(s, e);
    AfterRead(s, e, pcb, t);
    CurrentFirst(s, t);
    LeftoverThere(s, t);
    OthersHands(s, t);
    var hands := InHands(s, s.ready, t);
    assert InTurn(s, t) == LineLeft(Term(s, t).line) + (LineLeft(pcb.io.readLine) + hands) + QueuedLeft(Term(s, t).inputQueue);
    if OutOfTurn(s, e, t) {
      TakesJumping(Term(s, t), pcb, DeliveredBy(s, e, t), Term(Step(s, e), t), hands);
    } else {
      TakesInLine(Term(s, t), pcb, DeliveredBy(s, e, t), Term(Step(s, e), t), hands);
      assert InTurn(s, t) + [] == InTurn(s, t);
    }
  }

  lemma LeftoverThere(s: Kernel, t: nat)
    requires LinesRight(s)
    ensures Term(s, t).line.Some? ==> LineLeft(Term(s, t).line) != []
  {
  }

  /** Others have bytes in hand exactly if somebody in the ready queue has. */
  lemma OthersHands(s: Kernel, t: nat)
    requires HoldersFound(s, t) && s.current !in s.ready
    ensures OtherHolder(s, t) <==> InHands(s, s.ready, t) != []
  {
    hide Hand;
    if OtherHolder(s, t) {
      var p: Pid :| p != s.current && Hand(s, p, t) != [];
      InHandsSome(s, s.ready, p, t);
    } else {
      InHandsNone(s, s.ready, t);
    }
  }

  lemma WaitInTurn(s: Kernel, e: Event, pcb: Pcb, t: nat, u: nat)
    requires Inv(s) && LinesRight(s) && HoldersFound(s, u) && FindsNone(s, e, pcb, t)
    ensures Legal(s, e) && InLine(s, e, u, Step(s, e)) && HoldersFound(Step(s, e), u) && !OutOfTurn(s, e, u)
  {
    hide Inv, LinesRight, Step, Schedule, TtyCallProofs.Reading, Legal, DeliveredBy, ReceivedBy, LineLeft, QueuedLeft,
      Accounted, Q, HoldersFound, InLine;
    WaitingRead(s, e, pcb, t, u);
    WaitsAt(s, pcb, t);
    SameTermAt(s, Step(s, e), u);
    NoneInHand(s, pcb, t);
    HandOfNone(s, s.current, u);
    NoStir(s, e, u);
  }

  lemma ReadElsewhere(s: Kernel, e: Event, pcb: Pcb, t: nat, u: nat)
    requires Inv(s) && LinesRight(s) && HoldersFound(s, u) && FindsLine(s, e, pcb, t) && u != t
    ensures Legal(s, e) && InLine(s, e, u, Step(s, e)) && HoldersFound(Step(s, e), u) && !OutOfTurn(s, e, u)
  {
    hide Inv, LinesRight, Step, Legal, DeliveredBy, ReceivedBy, LineLeft, QueuedLeft, Hand, Accounted, FindsLine,
      HoldersFound, InLine, ReadsLine, Term, Proc;
    LineReadElsewhere(s, e, pcb, t, u);
    LineElsewhere(s, e, pcb, t, u);
    NoStir(s, e, u);
  }

  lemma ReadingInTurn(s: Kernel, e: Event, u: nat)
    requires Inv(s) && LinesRight(s) && HoldersFound(s, u) && Legal(s, e)
    requires e.EvTtyRead? || (e.EvResume? && Cur(s).cont.InTtyRead?)
    ensures HoldersFound(Step(s, e), u)
    ensures if OutOfTurn(s, e, u) then JumpsLine(s, e, u) else InLine(s, e, u, Step(s, e))
  {
    hide Inv, LinesRight, HoldersFound, InLine, JumpsLine, OutOfTurn, Accounted, Step, Legal, FindsLine, FindsNone,
      Return, Hands, Reads;
    var pcb, t := ReadCases(s, e);
    if FindsLine(s, e, pcb, t) {
      if u == t {
        ReadInTurn(s, e, pcb, t);
      } else {
        ReadElsewhere(s, e, pcb, t, u);
      }
    } else if FindsNone(s, e, pcb, t) {
      WaitInTurn(s, e, pcb, t, u);
    } else {
      RefusedInTurn(s, e, u);
    }
  }

  lemma RefusedInTurn(s: Kernel, e: Event, u: nat)
    requires Inv(s) && LinesRight(s) && HoldersFound(s, u) && Legal(s, e) && e.EvTtyRead? && !Reads(s, e, u)
    requires Step(s, e) == Return(s, ERROR) || Step(s, e) == Return(s, 0)
    ensures InLine(s, e, u, Step(s, e)) && HoldersFound(Step(s, e), u) && !OutOfTurn(s, e, u)
  {
    hide Inv, LinesRight, HoldersFound, InLine, Accounted, Step, Legal, Return, Hands;
    NoRead(s, e, u);
    NotReading(s, e);
    HandOfNone(s, s.current, u);
    NoStir(s, e, u);
  }

  // ---------- receiving ----------

  /** The line goes to the input queue, behind everything else. */
  lemma QueuedInTurn(s: Kernel, e: Event, t: nat)
    requires Inv(s) && LinesRight(s) && HoldersFound(s, t) && Legal(s, e) && e.EvReceive? && 0 <= e.tty < |s.terms| && e.ok
    requires Q(s, ReadQ(e.tty)) == []
    ensures InLine(s, e, t, Step(s, e)) && HoldersFound(Step(s, e), t)
  {
    hide Inv, LinesRight, Step, Legal, DeliveredBy, LostBy, QueuedLeft, LineLeft, Touches, Q, Term, Hand,
      HoldersFound, SameEachHand, MovesUp, OnceReady;
    var s' := Step(s, e);
    NothingRead(s, e, t);
    ReceiveFacts(s, e, t);
    ReceiveQueued(s, e, t);
    QueuedAppend(Term(s, t).inputQueue, Line(e.data, 0));
    FreshLine(e.data);
    NotInside(s, e, t);
    ReadyMovesUp(s, e);
    TurnsKept(s, s', t);
    var left, hands, queue := LineLeft(Term(s, t).line), InHands(s, [s.current] + s.ready, t), QueuedLeft(Term(s, t).inputQueue);
    assert QueuedLeft(Term(s', t).inputQueue) == queue + ReceivedBy(s, e, t);
    assert [] + (left + hands + (queue + ReceivedBy(s, e, t))) == left + hands + queue + ReceivedBy(s, e, t);
  }

  /** A trap finds the running process in its user program. */
  lemma NotInside(s: Kernel, e: Event, t: nat)
    requires Legal(s, e) && !e.EvResume?
    ensures Hand(s, s.current, t) == []
  {
  }

  /** The first queued reader goes to the end of the ready queue, with the line in hand. */
  lemma HandedReady(s: Kernel, t: nat, data: seq<Byte>)
    requires Inv(s) && t < |s.terms| && Q(s, ReadQ(t)) != []
    ensures var r, s' := Q(s, ReadQ(t))[0], TrapReceive(s, t, data, true);
      && r !in s.ready && r != s.current && s'.ready == s.ready + [r] && s'.current == s.current
      && Term(s, t).inputQueue == []
  {
    hide LockInv, PipeInv, FamilyInv, TtyInv, ParksAgree, DelaysAhead;
    var r := Q(s, ReadQ(t))[0];
    HeadIn(Q(s, ReadQ(t)));
    TtyCallProofs.CurrentApart(s);
    QueueEmpty(s, t);
    ReaderBlocked(s, t, r);
  }

  lemma QueueEmpty(s: Kernel, t: nat)
    requires Inv(s) && t < |s.terms| && Q(s, ReadQ(t)) != []
    ensures Term(s, t).inputQueue == []
  {
    hide PlaceInv, LockInv, PipeInv, FamilyInv, TtyInv, WriterRight, StreamRight;
    TtyProofs.TerminalOf(s, t);
  }

  lemma ReaderBlocked(s: Kernel, t: nat, r: Pid)
    requires PlaceInv(s) && r in Q(s, ReadQ(t))
    ensures r in s.procs && s.procs[r].state.Blocked? && r != s.idle && r !in s.ready && r != s.current
  {
    hide Unique;
    assert ParksAgree(s, r);
  }

  /** The line goes to a reader, behind all that have one. */
  lemma HandedInTurn(s: Kernel, e: Event, t: nat)
    requires Inv(s) && LinesRight(s) && HoldersFound(s, t) && Legal(s, e) && e.EvReceive? && 0 <= e.tty < |s.terms| && e.ok
    requires Q(s, ReadQ(e.tty)) != [] && e.tty == t
    ensures InLine(s, e, t, Step(s, e)) && HoldersFound(Step(s, e), t)
  {
    hide Inv, LinesRight, Legal, DeliveredBy, LostBy, Hand, Touches, Term, WithLine, Q, TrapReceive, QueuedLeft,
      LineLeft;
    var s', s1, r := Step(s, e), WithLine(s, t, e.data), Q(s, ReadQ(t))[0];
    NothingRead(s, e, t);
    ReceiveFacts(s, e, t);
    ReceiveHanded(s, e, t);
    HandedReady(s, t, e.data);
    var before := [s.current] + s.ready;
    assert [s'.current] + s'.ready == before + [r];
    assert r !in before;
    InHandsAppend(s', before, [r], t);
    InHandsSame(s, s', before, t);
    OneInHand(s', r, t);
    NoLines();
    var left, hands := LineLeft(Term(s, t).line), InHands(s, before, t);
    assert [] + (left + (hands + e.data) + []) == left + hands + [] + e.data;
  }

  lemma NoLines()
    ensures QueuedLeft([]) == []
  {
  }

  lemma HandedElsewhere(s: Kernel, e: Event, t: nat)
    requires Inv(s) && LinesRight(s) && HoldersFound(s, t) && Legal(s, e) && e.EvReceive? && 0 <= e.tty < |s.terms| && e.ok
    requires Q(s, ReadQ(e.tty)) != [] && e.tty != t
    ensures InLine(s, e, t, Step(s, e)) && HoldersFound(Step(s, e), t)
  {
    hide Inv, LinesRight, Step, Legal, DeliveredBy, LostBy, Hand, Touches, Q, Term, InLine, HoldersFound, WithLine;
    NothingRead(s, e, t);
    ReceiveFacts(s, e, t);
    ReceiveHanded(s, e, t);
    NotInside(s, e, t);
    NoStir(s, e, t);
  }

  lemma ReceiveInTurn(s: Kernel, e: Event, t: nat)
    requires Inv(s) && LinesRight(s) && HoldersFound(s, t) && Legal(s, e) && e.EvReceive?
    ensures InLine(s, e, t, Step(s, e)) && HoldersFound(Step(s, e), t)
  {
    hide Inv, LinesRight, Step, Legal, DeliveredBy, LostBy, ReceivedBy, HoldersFound, InLine, Hand;
    if !(0 <= e.tty < |s.terms| && e.ok) {
      NothingRead(s, e, t);
      StepTheorems.StepIgnored(s, e);
      NotInside(s, e, t);
      NoStir(s, e, t);
    } else if Q(s, ReadQ(e.tty)) == [] {
      QueuedInTurn(s, e, t);
    } else if e.tty == t {
      HandedInTurn(s, e, t);
    } else {
      HandedElsewhere(s, e, t);
    }
  }

  // ---------- every step, every run ----------

  lemma OtherInTurn(s: Kernel, e: Event, t: nat)
    requires Inv(s) && LinesRight(s) && HoldersFound(s, t) && Legal(s, e)
    requires !e.EvReceive? && !e.EvTtyRead? && !(e.EvResume? && Cur(s).cont.InTtyRead?)
    ensures InLine(s, e, t, Step(s, e)) && HoldersFound(Step(s, e), t)
  {
    hide Inv, LinesRight, HoldersFound, InLine, Accounted, Step, Legal, Hands;
    OtherStep(s, e, t);
    NotReading(s, e);
    HandOfNone(s, s.current, t);
    NoStir(s, e, t);
  }

  /** A step is out of turn, and then delivers a byte before an older one, or it keeps all bytes in line. */
  lemma StepInTurn(s: Kernel, e: Event, t: nat)
    requires Inv(s) && LinesRight(s) && HoldersFound(s, t) && Legal(s, e)
    ensures HoldersFound(Step(s, e), t)
    ensures if OutOfTurn(s, e, t) then JumpsLine(s, e, t) else InLine(s, e, t, Step(s, e))
  {
    hide Inv, LinesRight, HoldersFound, InLine, JumpsLine, Step, Legal;
    if e.EvReceive? {
      ReceiveInTurn(s, e, t);
    } else if e.EvTtyRead? || (e.EvResume? && Cur(s).cont.InTtyRead?) {
      ReadingInTurn(s, e, t);
    } else {
      OtherInTurn(s, e, t);
    }
  }

  /** Some read of the run is out of turn. */
  ghost predicate SomeOutOfTurn(s: Kernel, es: seq<Event>, t: nat)
    requires LegalRun(s, es)
    decreases |es|
  {
    es != [] && (OutOfTurn(s, es[0], t) || SomeOutOfTurn(Step(s, es[0]), es[1..], t))
  }

  /** Without a read out of turn the bytes stay in line, and no leftover line is replaced. */
  lemma {:induction false} RunInTurn(s: Kernel, es: seq<Event>, t: nat)
    requires Inv(s) && LinesRight(s) && HoldersFound(s, t) && LegalRun(s, es) && !SomeOutOfTurn(s, es, t)
    ensures DeliveredIn(s, es, t) + InTurn(Run(s, es), t) == InTurn(s, t) + ReceivedIn(s, es, t) && !SomeOverwrite(s, es, t)
    decreases |es|
  {
    if es == [] {
      assert [] + InTurn(s, t) == InTurn(s, t) + [];
    } else {
      OverwriteIsOut(s, es[0], t);
      hide Inv, LinesRight, HoldersFound, OutOfTurn, Step, Legal, InTurn, DeliveredBy, ReceivedBy, Overwrites,
        Accounted;
      var s1, rest := Step(s, es[0]), es[1..];
      StepInTurn(s, es[0], t);
      InputStep(s, es[0], t);
      RunInTurn(s1, rest, t);
      Chained(InTurn(s, t), ReceivedBy(s, es[0], t), DeliveredBy(s, es[0], t), InTurn(s1, t),
              ReceivedIn(s1, rest, t), DeliveredIn(s1, rest, t), InTurn(Run(s, es), t));
    }
  }

  /** A read that replaces a leftover line is out of turn. */
  lemma OverwriteIsOut(s: Kernel, e: Event, t: nat)
    ensures Overwrites(s, e, t) ==> OutOfTurn(s, e, t)
  {
  }

  lemma Chained(a: seq<Byte>, r: seq<Byte>, d: seq<Byte>, a1: seq<Byte>, r1: seq<Byte>, d1: seq<Byte>, a2: seq<Byte>)
    requires d + a1 == a + r && d1 + a2 == a1 + r1
    ensures (d + d1) + a2 == a + (r + r1)
  {
    assert (d + d1) + a2 == d + (d1 + a2) == (d + a1) + r1;
    assert (a + r) + r1 == a + (r + r1);
  }

  /** A read out of turn shows in what is delivered, unless equal bytes hide it. */
  lemma {:induction false} RunOutOfTurn(s: Kernel, es: seq<Event>, t: nat)
    requires Inv(s) && LinesRight(s) && HoldersFound(s, t) && LegalRun(s, es) && SomeOutOfTurn(s, es, t)
    requires Unique(InTurn(s, t) + ReceivedIn(s, es, t))
    ensures !(DeliveredIn(s, es, t) <= InTurn(s, t) + ReceivedIn(s, es, t))
    decreases |es|
  {
    hide Inv, LinesRight, HoldersFound, OutOfTurn, Step, Legal, InTurn, DeliveredBy, ReceivedBy, Accounted, Unique;
    var s1, rest := Step(s, es[0]), es[1..];
    StepInTurn(s, es[0], t);
    InputStep(s, es[0], t);
    if OutOfTurn(s, es[0], t) {
      Jumped(InTurn(s, t), DeliveredBy(s, es[0], t), DeliveredIn(s1, rest, t), ReceivedIn(s, es, t));
    } else {
      SplitUnique(InTurn(s, t), ReceivedBy(s, es[0], t), DeliveredBy(s, es[0], t), InTurn(s1, t), ReceivedIn(s1, rest, t));
      RunOutOfTurn(s1, rest, t);
      NotPrefix(DeliveredBy(s, es[0], t), DeliveredIn(s1, rest, t), InTurn(s1, t) + ReceivedIn(s1, rest, t));
    }
  }

  lemma Jumped(turn: seq<Byte>, got: seq<Byte>, later: seq<Byte>, received: seq<Byte>)
    requires Unique(turn + received) && got != [] && exists k :: 0 < k < |turn| && turn[k] == got[0]
    ensures !(got + later <= turn + received)
  {
    var k :| 0 < k < |turn| && turn[k] == got[0];
    var all := turn + received;
    assert all[0] != all[k];
    assert (got + later)[0] == got[0];
  }

  lemma SplitUnique(a: seq<Byte>, r: seq<Byte>, d: seq<Byte>, a1: seq<Byte>, r1: seq<Byte>)
    requires d + a1 == a + r && Unique(a + (r + r1))
    ensures a + (r + r1) == d + (a1 + r1) && Unique(a1 + r1)
  {
    var all, tail := a + (r + r1), a1 + r1;
    assert all == (a + r) + r1 == d + tail;
    assert forall i :: 0 <= i < |tail| ==> tail[i] == all[|d| + i];
  }

  lemma NotPrefix(d: seq<Byte>, d1: seq<Byte>, all: seq<Byte>)
    requires !(d1 <= all)
    ensures !(d + d1 <= d + all)
  {
    if d + d1 <= d + all {
      assert forall i :: 0 <= i < |d1| ==> d1[i] == (d + d1)[|d| + i] == (d + all)[|d| + i] == all[i];
    }
  }

  // ---------- from boot ----------

  lemma BootInTurn(s: Kernel, t: nat)
    requires Booted(s)
    ensures HoldersFound(s, t) && InTurn(s, t) == []
  {
    forall p: Pid ensures Hand(s, p, t) == [] {
    }
    InHandsNone(s, [s.current] + s.ready, t);
  }

  /**
   * From boot, without a read out of turn: the bytes delivered, in the order of the reads, and then those left over,
   * in hand and queued, in the order of their turns, are the bytes received, in the order they came.
   */
  lemma InputInOrder(s: Kernel, es: seq<Event>, t: nat)
    requires Booted(s) && LegalRun(s, es) && !SomeOutOfTurn(s, es, t)
    ensures DeliveredIn(s, es, t) + InTurn(Run(s, es), t) == ReceivedIn(s, es, t) && !SomeOverwrite(s, es, t)
  {
    hide Inv, LegalRun, Run, Booted, LinesRight, InTurn, HoldersFound, DeliveredIn, ReceivedIn, SomeOverwrite,
      SomeOutOfTurn;
    RunTheorems.BootInv(s);
    BootLines(s, t);
    BootInTurn(s, t);
    RunInTurn(s, es, t);
    assert [] + ReceivedIn(s, es, t) == ReceivedIn(s, es, t);
  }

  /** Where all bytes received are different, they are delivered in the order they came exactly if no read is out of turn. */
  lemma InOrderIff(s: Kernel, es: seq<Event>, t: nat)
    requires Booted(s) && LegalRun(s, es) && Unique(ReceivedIn(s, es, t))
    ensures DeliveredIn(s, es, t) <= ReceivedIn(s, es, t) <==> !SomeOutOfTurn(s, es, t)
  {
    hide Inv, LegalRun, Run, Booted, LinesRight, InTurn, HoldersFound, DeliveredIn, ReceivedIn, SomeOverwrite,
      SomeOutOfTurn, Unique;
    if SomeOutOfTurn(s, es, t) {
      RunTheorems.BootInv(s);
      BootLines(s, t);
      BootInTurn(s, t);
      assert InTurn(s, t) + ReceivedIn(s, es, t) == ReceivedIn(s, es, t);
      RunOutOfTurn(s, es, t);
    } else {
      InputInOrder(s, es, t);
    }
  }

  // ---------- one reader at a time ----------

  /** Process p has called TtyRead of terminal t and has not returned from it. */
  predicate Inside(s: Kernel, p: Pid, t: nat) {
    Proc(s, p).cont.InTtyRead? && Proc(s, p).ttyId == t
  }

  /** At most one process is inside TtyRead of terminal t, the one that reads in this step included. */
  ghost predicate OneReader(s: Kernel, e: Event, t: nat) {
    && (forall p, q :: Inside(s, p, t) && Inside(s, q, t) ==> p == q)
    && (ReadsLine(s, e, t) ==> forall p :: Inside(s, p, t) ==> p == s.current)
  }

  /** While a reader is queued or has bytes in hand there is no leftover line. */
  ghost predicate LeftoverFree(s: Kernel, t: nat) {
    Q(s, ReadQ(t)) != [] || Hands(s, t, MAX_PROCS) != [] ==> Term(s, t).line.None?
  }

  /** Everybody queued to read terminal t is inside TtyRead, and the running process is not queued. */
  lemma QueuedInside(s: Kernel, t: nat)
    requires Inv(s) && t < |s.terms|
    ensures Q(s, ReadQ(t)) != [] ==> Inside(s, Q(s, ReadQ(t))[0], t) && Q(s, ReadQ(t))[0] != s.current
  {
    hide PlaceInv, LockInv, PipeInv, FamilyInv, TtyInv, WriterRight, StreamRight;
    TtyProofs.TerminalOf(s, t);
    HeadIn(Q(s, ReadQ(t)));
    TtyCallProofs.CurrentApart(s);
  }

  /** Only the reader has bytes in hand. */
  lemma OthersEmpty(s: Kernel, t: nat, r: Pid)
    requires r < MAX_PROCS && forall p :: Inside(s, p, t) ==> p == r
    ensures Hands(s, t, MAX_PROCS) == Hand(s, r, t) && forall p: Pid :: p != r ==> Hand(s, p, t) == []
  {
    forall p: Pid | p != r ensures Hand(s, p, t) == [] {
      assert !Inside(s, p, t);
    }
    OnlyHand(s, t, MAX_PROCS, r);
  }

  /** A reader alone at its terminal is never out of turn. */
  lemma AloneInTurn(s: Kernel, e: Event, t: nat)
    requires Inv(s) && LinesRight(s) && Legal(s, e) && LeftoverFree(s, t) && OneReader(s, e, t)
    ensures !OutOfTurn(s, e, t)
  {
    hide Inv, Hands, Hand, LinesRight, Legal;
    if OutOfTurn(s, e, t) {
      Pids(s);
      OthersEmpty(s, t, s.current);
      OwnHand(s, e, t);
    }
  }

  lemma OwnHand(s: Kernel, e: Event, t: nat)
    requires LinesRight(s) && Legal(s, e) && OutOfTurn(s, e, t) && Cur(s).io.readLine.Some?
    ensures Hand(s, s.current, t) == LineLeft(Cur(s).io.readLine)
  {
    hide Legal, LinesRight;
    if !e.EvResume? {
      NotReading(s, e);
    }
  }

  lemma SameFree(s: Kernel, s': Kernel, t: nat)
    requires LeftoverFree(s, t) && SameInput(s, s', t) && Hands(s', t, MAX_PROCS) == Hands(s, t, MAX_PROCS)
    ensures LeftoverFree(s', t)
  {
    hide Hands;
  }

  /** The only reader takes its line: nobody is queued, and nobody has bytes in hand. */
  lemma ReadFree(s: Kernel, e: Event, pcb: Pcb, t: nat)
    requires Inv(s) && FindsLine(s, e, pcb, t) && OneReader(s, e, t)
    ensures Legal(s, e) && LeftoverFree(Step(s, e), t)
  {
    hide Inv, Step, Hands, Legal, Hand, FindsLine, Term, Proc, ReadsLine, Inside, Reads, LinesRight;
    FindsFacts(s, e, pcb, t);
    FindsReads(s, e, pcb, t);
    var s' := Step(s, e);
    LineElsewhere(s, e, pcb, t, t);
    QueuedInside(s, t);
    OthersEmpty(s, t, s.current);
    SameOthers(s, s', t);
    HandOfNone(s', s.current, t);
    OnlyHand(s', t, MAX_PROCS, s.current);
    assert Q(s', ReadQ(t)) == [];
  }

  lemma FindsReads(s: Kernel, e: Event, pcb: Pcb, t: nat)
    requires FindsLine(s, e, pcb, t)
    ensures ReadsLine(s, e, t) && t < |s.terms|
  {
    hide Step, Legal, TtyCallProofs.LineRead, LinesRight, ReadsLine;
  }

  /** A reader that has to wait found no leftover line. */
  lemma WaitFree(s: Kernel, e: Event, pcb: Pcb, t: nat, u: nat)
    requires Inv(s) && LinesRight(s) && LeftoverFree(s, u) && FindsNone(s, e, pcb, t)
    ensures Legal(s, e) && LeftoverFree(Step(s, e), u)
  {
    hide Inv, LinesRight, Step, Hands, Schedule, TtyCallProofs.Reading, Legal, ReadsLine, Accounted, Q, DeliveredBy,
      ReceivedBy, SameEachHand;
    WaitingRead(s, e, pcb, t, u);
    WaitsAt(s, pcb, t);
    SameTermAt(s, Step(s, e), u);
  }

  lemma ReceiveFree(s: Kernel, e: Event, t: nat)
    requires Inv(s) && LinesRight(s) && LeftoverFree(s, t) && Legal(s, e) && e.EvReceive?
    ensures LeftoverFree(Step(s, e), t)
  {
    hide Inv, LinesRight, Step, Legal, Hands, Hand, Touches, Q, Term, WithLine, SameEachHand;
    if !(0 <= e.tty < |s.terms| && e.ok) {
      StepTheorems.StepIgnored(s, e);
    } else {
      ReceiveFacts(s, e, t);
      if Q(s, ReadQ(e.tty)) == [] {
        ReceiveQueued(s, e, t);
      } else if e.tty != t {
        ReceiveHanded(s, e, t);
        SameHands(s, WithLine(s, e.tty, e.data), t, MAX_PROCS);
      }
    }
  }

  lemma ReadingFree(s: Kernel, e: Event, u: nat)
    requires Inv(s) && LinesRight(s) && LeftoverFree(s, u) && Legal(s, e) && OneReader(s, e, u)
    requires e.EvTtyRead? || (e.EvResume? && Cur(s).cont.InTtyRead?)
    ensures LeftoverFree(Step(s, e), u)
  {
    hide Inv, LinesRight, LeftoverFree, OneReader, Accounted, Step, Legal, FindsLine, FindsNone, Reads, Return, Hands,
      SameInput;
    var pcb, t := ReadCases(s, e);
    if FindsLine(s, e, pcb, t) {
      if u == t {
        ReadFree(s, e, pcb, t);
      } else {
        LineReadElsewhere(s, e, pcb, t, u);
        SameFree(s, Step(s, e), u);
      }
    } else if FindsNone(s, e, pcb, t) {
      WaitFree(s, e, pcb, t, u);
    } else {
      NoRead(s, e, u);
      SameFree(s, Step(s, e), u);
    }
  }

  lemma StepFree(s: Kernel, e: Event, t: nat)
    requires Inv(s) && LinesRight(s) && LeftoverFree(s, t) && Legal(s, e) && OneReader(s, e, t)
    ensures LeftoverFree(Step(s, e), t)
  {
    hide Inv, LinesRight, LeftoverFree, OneReader, Accounted, Step, Legal, Hands, SameInput;
    if e.EvReceive? {
      ReceiveFree(s, e, t);
    } else if e.EvTtyRead? || (e.EvResume? && Cur(s).cont.InTtyRead?) {
      ReadingFree(s, e, t);
    } else {
      OtherStep(s, e, t);
      SameFree(s, Step(s, e), t);
    }
  }

  /** In every state of the run at most one process reads terminal t. */
  ghost predicate OneReaderRun(s: Kernel, es: seq<Event>, t: nat)
    requires LegalRun(s, es)
    decreases |es|
  {
    es == [] || (OneReader(s, es[0], t) && OneReaderRun(Step(s, es[0]), es[1..], t))
  }

  lemma {:induction false} OneReaderInTurn(s: Kernel, es: seq<Event>, t: nat)
    requires Inv(s) && LinesRight(s) && LeftoverFree(s, t) && LegalRun(s, es) && OneReaderRun(s, es, t)
    ensures !SomeOutOfTurn(s, es, t)
    decreases |es|
  {
    hide Inv, LinesRight, LeftoverFree, OneReader, OutOfTurn, Step, Legal, Accounted;
    if es != [] {
      AloneInTurn(s, es[0], t);
      InputStep(s, es[0], t);
      StepFree(s, es[0], t);
      OneReaderInTurn(Step(s, es[0]), es[1..], t);
    }
  }

  /** From boot, as long as at most one process reads the terminal at a time, its input is in order and complete. */
  lemma OneReaderInOrder(s: Kernel, es: seq<Event>, t: nat)
    requires Booted(s) && LegalRun(s, es) && OneReaderRun(s, es, t)
    ensures DeliveredIn(s, es, t) + InTurn(Run(s, es), t) == ReceivedIn(s, es, t) && !SomeOverwrite(s, es, t)
  {
    BootFree(s, t);
    hide Inv, LegalRun, Run, Booted, LinesRight, InTurn, LeftoverFree, DeliveredIn, ReceivedIn, SomeOverwrite,
      SomeOutOfTurn, OneReaderRun;
    RunTheorems.BootInv(s);
    BootLines(s, t);
    OneReaderInTurn(s, es, t);
    InputInOrder(s, es, t);
  }

  lemma BootFree(s: Kernel, t: nat)
    requires Booted(s)
    ensures LeftoverFree(s, t)
  {
    hide Hands;
  }
}
