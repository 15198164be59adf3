/**
 * Two readers at one terminal and two lines of two bytes: the run in which the second reader, with a buffer of one
 * byte, throws away what the first has left; and the run in which it has a buffer of two, nothing is thrown away,
 * and the bytes are delivered out of order.
 */
module InputWitness {
  import opened Common
  import opened KernelState
  import opened KernelSteps
  import SafetyTheorems
  import opened InputTheorems

  /** What the run needs to know of a state: the two readers a and b, and terminal 0. */
  datatype View = View(current: Pid, ready: seq<Pid>, readers: seq<Pid>, pa: Pcb, pb: Pcb, line: Option<Line>)

  ghost predicate Shows(s: Kernel, a: Pid, b: Pid, v: View) {
    && a != b && a != s.idle && b != s.idle && s.procs.Keys == {a, b, s.idle}
    && s.procs[a] == v.pa && s.procs[b] == v.pb
    && s.procs[s.idle] == BlankPcb.(state := Running)
    && v.pa.delayUntil == 0 && v.pb.delayUntil == 0
    && s.current == v.current && s.ready == v.ready && Q(s, ReadQ(0)) == v.readers
    && |s.terms| > 0 && Term(s, 0).line == v.line && Term(s, 0).inputQueue == []
  }

  lemma NoDelays(s: Kernel, a: Pid, b: Pid, v: View)
    requires Shows(s, a, b, v)
    ensures WakeDelayed(s, 0) == s
  {
    forall p ensures !DelayOver(s, p) {
    }
    SafetyTheorems.NobodyDelayed(s, 0);
  }

  function Asking(pcb: Pcb, n: nat): Pcb {
    pcb.(ttyId := 0, io := pcb.io.(readLen := n))
  }

  function Queued(pcb: Pcb, n: nat): Pcb {
    Asking(pcb, n).(state := Blocked, blockQueue := Some(ReadQ(0)), cont := InTtyRead)
  }

  function GivenLine(pcb: Pcb, data: seq<Byte>): Pcb {
    pcb.(state := Ready, blockQueue := None, io := pcb.io.(readLine := Some(Line(data, 0))))
  }

  /** The step delivers nothing and replaces nothing at terminal 0. */
  ghost predicate Quiet(s: Kernel, e: Event) {
    Legal(s, e) && DeliveredBy(s, e, 0) == [] && !Overwrites(s, e, 0)
  }

  /** A reads, with nothing there and b next. */
  lemma FirstReads(s: Kernel, a: Pid, b: Pid, pa: Pcb, pb: Pcb)
    requires Shows(s, a, b, View(a, [b], [], pa, pb, None)) && pa.cont.ToUser? && pa.io.readLine.None?
    ensures Legal(s, EvTtyRead(0, 1, false))
    ensures Shows(Step(s, EvTtyRead(0, 1, false)), a, b, View(b, [], [a], Queued(pa, 1), pb.(state := Running), None))
    ensures Quiet(s, EvTtyRead(0, 1, false))
  {
    var s1 := SetCur(s, Asking(pa, 1));
    var s2 := Enqueue(s1, ReadQ(0), InTtyRead);
    hide WakeDelayed;
    NoDelays(s2, a, b, View(a, [b], [a], Queued(pa, 1), pb, None));
    ReadsNothing(s, EvTtyRead(0, 1, false), 0);
  }

  /** B reads, with nothing there and nobody next. */
  lemma SecondReads(s: Kernel, a: Pid, b: Pid, pa: Pcb, pb: Pcb, n: Positive)
    requires Shows(s, a, b, View(b, [], [a], pa, pb, None)) && pb.cont.ToUser? && pb.io.readLine.None?
    ensures Legal(s, EvTtyRead(0, n, false))
    ensures Shows(Step(s, EvTtyRead(0, n, false)), a, b, View(s.idle, [], [a, b], pa, Queued(pb, n), None))
    ensures Quiet(s, EvTtyRead(0, n, false))
  {
    var s1 := SetCur(s, Asking(pb, n));
    var s2 := Enqueue(s1, ReadQ(0), InTtyRead);
    hide WakeDelayed;
    NoDelays(s2, a, b, View(b, [], [a, b], pa, Queued(pb, n), None));
    ReadsNothing(s, EvTtyRead(0, n, false), 0);
  }

  lemma FirstLine(s: Kernel, a: Pid, b: Pid, pa: Pcb, pb: Pcb, data: seq<Byte>)
    requires |data| <= TERMINAL_MAX_LINE
    requires Shows(s, a, b, View(s.idle, [], [a, b], pa, pb, None)) && !pa.state.Zombie?
    ensures Legal(s, EvReceive(0, data, true))
    ensures Shows(Step(s, EvReceive(0, data, true)), a, b, View(s.idle, [a], [b], GivenLine(pa, data), pb, None))
  {
  }

  lemma SecondLine(s: Kernel, a: Pid, b: Pid, pa: Pcb, pb: Pcb, data: seq<Byte>)
    requires |data| <= TERMINAL_MAX_LINE
    requires Shows(s, a, b, View(s.idle, [a], [b], pa, pb, None)) && !pb.state.Zombie?
    ensures Legal(s, EvReceive(0, data, true))
    ensures Shows(Step(s, EvReceive(0, data, true)), a, b, View(s.idle, [a, b], [], pa, GivenLine(pb, data), None))
  {
  }

  lemma Tick(s: Kernel, a: Pid, b: Pid, pa: Pcb, pb: Pcb)
    requires Shows(s, a, b, View(s.idle, [a, b], [], pa, pb, None))
    ensures Legal(s, EvClock)
    ensures Shows(Step(s, EvClock), a, b, View(a, [b], [], pa.(state := Running), pb, None))
  {
    hide WakeDelayed;
    NoDelays(s.(clock := s.clock + 1), a, b, View(s.idle, [a, b], [], pa, pb, None));
  }

  lemma ShowsAgain(s: Kernel, s1: Kernel, a: Pid, b: Pid, v: View)
    requires Shows(s, a, b, v) && s1 == s.(clock := s.clock + 1)
    ensures Shows(s1, a, b, v)
  {
  }

  lemma SameTerminals(s: Kernel, s': Kernel)
    ensures s'.terms == s.terms ==> Term(s', 0) == Term(s, 0)
    ensures s'.queues == s.queues ==> Q(s', ReadQ(0)) == Q(s, ReadQ(0))
  {
  }

  lemma TickAgain(s: Kernel, a: Pid, b: Pid, pa: Pcb, pb: Pcb, line: Option<Line>)
    requires Shows(s, a, b, View(a, [b], [], pa, pb, line)) && pa.state.Running? && pa.cont.ToUser?
    ensures Legal(s, EvClock)
    ensures Shows(Step(s, EvClock), a, b, View(b, [a], [], pa.(state := Ready), pb.(state := Running), line))
  {
    hide WakeDelayed, Q, Term;
    var s1 := s.(clock := s.clock + 1);
    ShowsAgain(s, s1, a, b, View(a, [b], [], pa, pb, line));
    NoDelays(s1, a, b, View(a, [b], [], pa, pb, line));
    var s2 := s1.(procs := s1.procs[a := pa.(state := Ready)], ready := [b, a]);
    assert RequeueCurrent(s1) == s2;
    assert s2.ready[1..] == [a];
    SameTerminals(s, Step(s, EvClock));
  }

  /** A reads one of its two bytes; the other stays behind in the terminal. */
  lemma FirstResumes(s: Kernel, a: Pid, b: Pid, pa: Pcb, pb: Pcb, data: seq<Byte>)
    requires Shows(s, a, b, View(a, [b], [], pa, pb, None))
    requires pa.cont.InTtyRead? && pa.ttyId == 0 && pa.io.readLen == 1 && pa.io.readLine == Some(Line(data, 0)) && |data| == 2
    ensures Legal(s, EvResume)
    ensures Shows(Step(s, EvResume), a, b,
                 View(a, [b], [], pa.(cont := ToUser, io := pa.io.(readLine := None), user := pa.user.(result := 1, got := data[..1])), pb,
                      Some(Line(data, 1))))
    ensures DeliveredBy(s, EvResume, 0) == data[..1] && !Overwrites(s, EvResume, 0)
  {
  }

  /** The events of the run, a process making child b first; n is the second reader's buffer. */
  function Events(b: Pid, n: Positive): seq<Event> {
    [EvFork(b, true, true), EvTtyRead(0, 1, false), EvTtyRead(0, n, false)] + AfterReads()
  }

  function AfterReads(): seq<Event> {
    [EvReceive(0, [1, 2], true), EvReceive(0, [3, 4], true), EvClock, EvResume, EvClock, EvResume]
  }

  lemma BootForks(s: Kernel, b: Pid)
    requires Booted(s) && b != s.init && b != s.idle && b < MAX_PROCS
    ensures Legal(s, EvFork(b, true, true))
    ensures exists pa, pb :: (
      && Shows(Step(s, EvFork(b, true, true)), s.init, b, View(s.init, [b], [], pa, pb, None))
      && pa.cont.ToUser? && pa.io.readLine.None? && pa.state.Running? && pb.cont.ToUser? && pb.io.readLine.None? && pb.state.Ready?)
  {
    var s' := Step(s, EvFork(b, true, true));
    assert Q(s, ReadQ(0)) == [] && Q(s', ReadQ(0)) == Q(s, ReadQ(0));
    assert Shows(s', s.init, b, View(s.init, [b], [], s'.procs[s.init], s'.procs[b], None));
  }

  lemma {:induction false} RunHead(s: Kernel, es: seq<Event>, e: Event)
    requires Legal(s, e) && LegalRun(Step(s, e), es)
    ensures LegalRun(s, [e] + es)
    ensures SomeOverwrite(s, [e] + es, 0) <==> Overwrites(s, e, 0) || SomeOverwrite(Step(s, e), es, 0)
    ensures DeliveredIn(s, [e] + es, 0) == DeliveredBy(s, e, 0) + DeliveredIn(Step(s, e), es, 0)
    ensures ReceivedIn(s, [e] + es, 0) == ReceivedBy(s, e, 0) + ReceivedIn(Step(s, e), es, 0)
  {
    hide Step, Legal, Overwrites, DeliveredBy, ReceivedBy;
    assert ([e] + es)[1..] == es;
  }

  /** A step that is quiet at terminal 0, before the rest of the run. */
  lemma QuietHead(s: Kernel, es: seq<Event>, e: Event)
    requires Quiet(s, e) && LegalRun(Step(s, e), es)
    ensures LegalRun(s, [e] + es) && (SomeOverwrite(s, [e] + es, 0) <==> SomeOverwrite(Step(s, e), es, 0))
    ensures DeliveredIn(s, [e] + es, 0) == DeliveredIn(Step(s, e), es, 0)
    ensures ReceivedIn(s, [e] + es, 0) == ReceivedBy(s, e, 0) + ReceivedIn(Step(s, e), es, 0)
  {
    hide Step, Legal, SomeOverwrite, Overwrites, DeliveredBy, DeliveredIn, ReceivedBy, ReceivedIn;
    RunHead(s, es, e);
    assert [] + DeliveredIn(Step(s, e), es, 0) == DeliveredIn(Step(s, e), es, 0);
  }

  lemma NoReadIsQuiet(s: Kernel, e: Event)
    requires Legal(s, e) && (e.EvFork? || e.EvClock? || e.EvReceive?)
    ensures Quiet(s, e)
  {
    hide Step, Legal;
  }

  /** From the two lines on: the second reader overwrites with a buffer of one, and with two delivers 3 and 4 after 1. */
  lemma AfterBothRead(s: Kernel, a: Pid, b: Pid, pa: Pcb, pb: Pcb)
    requires TERMINAL_MAX_LINE >= 2
    requires Shows(s, a, b, View(s.idle, [], [a, b], pa, pb, None))
    requires pa.cont.InTtyRead? && pa.ttyId == 0 && pa.io.readLen == 1 && pa.state.Blocked?
    requires pb.cont.InTtyRead? && pb.ttyId == 0 && pb.io.readLen > 0 && pb.state.Blocked?
    ensures LegalRun(s, AfterReads()) && (SomeOverwrite(s, AfterReads(), 0) <==> pb.io.readLen == 1)
    ensures pb.io.readLen > 1 ==> DeliveredIn(s, AfterReads(), 0) == [1, 3, 4]
    ensures ReceivedIn(s, AfterReads(), 0) == [1, 2, 3, 4]
  {
    hide Step, Shows, Legal, SomeOverwrite, LegalRun, Quiet, DeliveredBy, DeliveredIn, ReceivedIn, Overwrites;
    FirstLine(s, a, b, pa, pb, [1, 2]);
    NoReadIsQuiet(s, EvReceive(0, [1, 2], true));
    IdleKept(s, EvReceive(0, [1, 2], true));
    var s4, ha := Step(s, EvReceive(0, [1, 2], true)), GivenLine(pa, [1, 2]);
    SecondLine(s4, a, b, ha, pb, [3, 4]);
    NoReadIsQuiet(s4, EvReceive(0, [3, 4], true));
    IdleKept(s4, EvReceive(0, [3, 4], true));
    var s5, hb := Step(s4, EvReceive(0, [3, 4], true)), GivenLine(pb, [3, 4]);
    Tick(s5, a, b, ha, hb);
    NoReadIsQuiet(s5, EvClock);
    var s6, ra := Step(s5, EvClock), ha.(state := Running);
    FirstResumes(s6, a, b, ra, hb, [1, 2]);
    var s7, ua := Step(s6, EvResume), ra.(cont := ToUser, io := ra.io.(readLine := None), user := ra.user.(result := 1, got := [1, 2][..1]));
    TickAgain(s7, a, b, ua, hb, Some(Line([1, 2], 1)));
    NoReadIsQuiet(s7, EvClock);
    var s8 := Step(s7, EvClock);
    SecondResumes(s8, a, b, ua.(state := Ready), hb.(state := Running), [1, 2], [3, 4]);
    QuietHead(s7, [EvResume], EvClock);
    RunHead(s6, [EvClock] + [EvResume], EvResume);
    QuietHead(s5, [EvResume] + ([EvClock] + [EvResume]), EvClock);
    var tail := [EvClock] + ([EvResume] + ([EvClock] + [EvResume]));
    QuietHead(s4, tail, EvReceive(0, [3, 4], true));
    QuietHead(s, [EvReceive(0, [3, 4], true)] + tail, EvReceive(0, [1, 2], true));
    TerminalThere(s, a, b, View(s.idle, [], [a, b], pa, pb, None));
    TerminalThere(s4, a, b, View(s.idle, [a], [b], ha, pb, None));
    NothingReceived(s8, s7, s6, s5);
    assert [EvReceive(0, [1, 2], true)] + ([EvReceive(0, [3, 4], true)] + tail) == AfterReads();
  }

  lemma TerminalThere(s: Kernel, a: Pid, b: Pid, v: View)
    requires Shows(s, a, b, v)
    ensures |s.terms| > 0
  {
  }

  lemma NothingReceived(s8: Kernel, s7: Kernel, s6: Kernel, s5: Kernel)
    ensures ReceivedBy(s7, EvClock, 0) == ReceivedBy(s6, EvResume, 0) == ReceivedBy(s5, EvClock, 0) == ReceivedBy(s8, EvResume, 0) == []
  {
  }

  /** The whole run from boot, for both sizes of the second buffer. */
  lemma TwoReaders(s: Kernel, b: Pid, n: Positive)
    requires TERMINAL_MAX_LINE >= 2
    requires Booted(s) && b != s.init && b != s.idle && b < MAX_PROCS
    ensures LegalRun(s, Events(b, n)) && (SomeOverwrite(s, Events(b, n), 0) <==> n == 1)
    ensures n > 1 ==> DeliveredIn(s, Events(b, n), 0) == [1, 3, 4]
    ensures ReceivedIn(s, Events(b, n), 0) == [1, 2, 3, 4]
  {
    hide Booted, Step, Shows, Legal, SomeOverwrite, LegalRun, Quiet, DeliveredBy, DeliveredIn, ReceivedIn,
      AfterReads, Overwrites;
    var a := s.init;
    BootForks(s, b);
    NoReadIsQuiet(s, EvFork(b, true, true));
    var s1 := Step(s, EvFork(b, true, true));
    var pa, pb :| Shows(s1, a, b, View(a, [b], [], pa, pb, None))
      && pa.cont.ToUser? && pa.io.readLine.None? && pa.state.Running? && pb.cont.ToUser? && pb.io.readLine.None? && pb.state.Ready?;
    FirstReads(s1, a, b, pa, pb);
    var s2, qa, rb := Step(s1, EvTtyRead(0, 1, false)), Queued(pa, 1), pb.(state := Running);
    SecondReads(s2, a, b, qa, rb, n);
    var s3, qb := Step(s2, EvTtyRead(0, n, false)), Queued(rb, n);
    IdleKept(s2, EvTtyRead(0, n, false));
    AfterBothRead(s3, a, b, qa, qb);
    QuietHead(s2, AfterReads(), EvTtyRead(0, n, false));
    QuietHead(s1, [EvTtyRead(0, n, false)] + AfterReads(), EvTtyRead(0, 1, false));
    QuietHead(s, [EvTtyRead(0, 1, false)] + ([EvTtyRead(0, n, false)] + AfterReads()), EvFork(b, true, true));
    assert [EvFork(b, true, true)] + ([EvTtyRead(0, 1, false)] + ([EvTtyRead(0, n, false)] + AfterReads())) == Events(b, n);
  }

  /** From boot: the second of the two readers throws away the byte the first has left. */
  lemma InputCanBeLost(s: Kernel, b: Pid)
    requires TERMINAL_MAX_LINE >= 2
    requires Booted(s) && b != s.init && b != s.idle && b < MAX_PROCS
    ensures LegalRun(s, Events(b, 1)) && SomeOverwrite(s, Events(b, 1), 0)
  {
    hide SomeOverwrite, LegalRun, Booted;
    TwoReaders(s, b, 1);
  }

  /** From boot: nothing is thrown away, and what two readers got is not how the bytes came. */
  lemma InputCanBeReordered(s: Kernel, b: Pid)
    requires TERMINAL_MAX_LINE >= 2
    requires Booted(s) && b != s.init && b != s.idle && b < MAX_PROCS
    ensures LegalRun(s, Events(b, 2)) && !SomeOverwrite(s, Events(b, 2), 0)
    ensures !(DeliveredIn(s, Events(b, 2), 0) <= ReceivedIn(s, Events(b, 2), 0))
  {
    hide SomeOverwrite, LegalRun, Booted, DeliveredIn, ReceivedIn;
    TwoReaders(s, b, 2);
    assert [1, 3, 4][1] != [1, 2, 3, 4][1];
  }

  lemma IdleKept(s: Kernel, e: Event)
    requires Legal(s, e) && (e.EvReceive? || e.EvTtyRead?)
    ensures Step(s, e).idle == s.idle
  {
    hide Schedule;
    if e.EvTtyRead? && 0 <= e.tty && 0 < e.len {
      var s1 := SetCur(s, Cur(s).(ttyId := e.tty, io := Cur(s).io.(readLen := e.len)));
      ScheduleIdle(Enqueue(s1, ReadQ(e.tty), InTtyRead));
    }
  }

  lemma {:induction false} WakeIdle(s: Kernel, i: nat)
    ensures WakeDelayed(s, i).idle == s.idle
    decreases MAX_PROCS - i
  {
    if i < MAX_PROCS {
      WakeIdle(WakeDelayedAt(s, i), i + 1);
    }
  }

  lemma ScheduleIdle(s: Kernel)
    ensures Schedule(s).idle == s.idle
  {
    hide WakeDelayed;
    WakeIdle(s, 0);
  }

  lemma SecondResumes(s: Kernel, a: Pid, b: Pid, pa: Pcb, pb: Pcb, first: seq<Byte>, second: seq<Byte>)
    requires |first| == 2 && |second| == 2 && Shows(s, a, b, View(b, [a], [], pa, pb, Some(Line(first, 1))))
    requires pb.cont.InTtyRead? && pb.ttyId == 0 && pb.io.readLen > 0 && pb.io.readLine == Some(Line(second, 0))
    ensures LegalRun(s, [EvResume]) && (SomeOverwrite(s, [EvResume], 0) <==> pb.io.readLen == 1)
    ensures pb.io.readLen > 1 ==> DeliveredIn(s, [EvResume], 0) == second
    ensures ReceivedIn(s, [EvResume], 0) == []
  {
    assert [EvResume][1..] == [];
    assert Overwrites(s, EvResume, 0) <==> pb.io.readLen == 1;
    if pb.io.readLen > 1 {
      assert DeliveredBy(s, EvResume, 0) == second;
    }
  }
}
