/**
 When a `noidle` that rmpcd wrote for one idle period can end a later one.
 */
module LateNoIdle {
  import opened Wire
  import opened AsyncClient

  /** Only the newest period is asked for or running, and not on a connection the callers
      cannot write to. */
  predicate Tagged(s: State) {
    s.broken ||
    (&& (forall i | 0 <= i < |s.conn.inbound| :: s.conn.inbound[i].Idle? ==> s.conn.inbound[i].period == s.period)
     && (s.conn.mode.Idling? ==> s.conn.mode.period == s.period)
     && (s.interrupt != s.connId ==> !s.conn.mode.Idling? && NoIdleLines(s.conn.inbound)))
  }

  predicate NoIdleLines(lines: seq<Line>) {
    forall i | 0 <= i < |lines| :: !lines[i].Idle?
  }

  lemma {:induction false} InsignificantLines(lines: seq<Line>)
    requires Significant(lines) == []
    ensures NoIdleLines(lines)
  {
    if lines != [] { InsignificantLines(lines[1..]); }
  }

  predicate SameWire(s: State, t: State) {
    t.conn.inbound == s.conn.inbound && t.conn.mode == s.conn.mode && t.broken == s.broken
  }

  predicate Writes(s: State, t: State, line: Line) {
    t.conn.inbound == s.conn.inbound + [line] && t.conn.mode == s.conn.mode && t.broken == s.broken
  }

  /** All that the worker can do to what MPD reads. */
  predicate WorkerWire(s: State, t: State) {
    && t.callers == s.callers
    && (|| (t.period == s.period && (SameWire(s, t) || Writes(s, t, Command) || Writes(s, t, NoIdle(s.period))))
        || (t.period == s.period && t.conn == FRESH_CONN)
        || (t.period == s.period + 1 && Writes(s, t, Idle(t.period))))
  }

  lemma ServeWire(s: State, fail: bool)
    requires WorkerEnabled(s, fail) && Serves(s.pc)
    ensures WorkerWire(s, ServeStep(s, fail))
  {
  }

  lemma IdleWire(s: State, fail: bool)
    requires WorkerEnabled(s, fail) && Idles(s.pc)
    ensures WorkerWire(s, IdleStep(s, fail))
  {
  }

  lemma RecoverWire(s: State, fail: bool)
    requires WorkerEnabled(s, fail) && !Serves(s.pc) && !Idles(s.pc)
    ensures WorkerWire(s, RecoverStep(s, fail))
  {
  }

  lemma StepWire(s: State, fail: bool)
    requires WorkerEnabled(s, fail)
    ensures WorkerWire(s, WorkerStep(s, fail))
  {
    if Serves(s.pc) { ServeWire(s, fail); }
    else if Idles(s.pc) { IdleWire(s, fail); }
    else { RecoverWire(s, fail); }
  }

  lemma WorkerTags(s: State, fail: bool)
    requires Inv(s) && Tagged(s) && WorkerEnabled(s, fail)
    ensures Tagged(WorkerStep(s, fail))
  {
    if Serves(s.pc) { ServeTags(s, fail); }
    else if Idles(s.pc) { IdleTags(s, fail); }
  }

  lemma ServeTags(s: State, fail: bool)
    requires Tagged(s) && WorkerEnabled(s, fail) && Serves(s.pc)
    ensures Tagged(ServeStep(s, fail))
  {
  }

  lemma IdleTags(s: State, fail: bool)
    requires WireInv(s) && AtomicInv(s) && Tagged(s) && WorkerEnabled(s, fail) && Idles(s.pc)
    ensures Tagged(IdleStep(s, fail))
  {
    if s.pc.Enter? && !s.broken { InsignificantLines(s.conn.inbound); }
  }

  lemma OthersTag(s: State, a: Action)
    requires Tagged(s) && Enabled(s, a) && !a.Worker?
    ensures Tagged(Apply(s, a))
  {
  }

  lemma {:induction false} TaggedAlong(s: State, acts: seq<Action>)
    requires Inv(s) && Tagged(s) && Legal(s, acts)
    ensures Tagged(After(s, acts))
    decreases |acts|
  {
    if acts != [] {
      StepKeeps(s, acts[0]);
      if acts[0].Worker? { WorkerTags(s, acts[0].fail); } else { OthersTag(s, acts[0]); }
      TaggedAlong(Apply(s, acts[0]), acts[1..]);
    }
  }

  /** The next line MPD reads in period `q` is a `noidle` meant for an earlier one. */
  predicate LateArrives(s: State, q: nat) {
    !s.broken && s.conn.mode == Idling(q) && s.conn.inbound != []
    && s.conn.inbound[0].NoIdle? && s.conn.inbound[0].target < q
  }

  /** The newest period can be ended by a `noidle` of an earlier one. */
  ghost predicate CanBeLate(s: State) {
    exists more :: Legal(s, more) && LateArrives(After(s, more), s.period)
  }

  /** A caller won an earlier period and has not written yet. */
  predicate Straggler(s: State, q: nat) {
    exists c | c in s.callers :: s.callers[c].Won? && s.callers[c].period < q
  }

  /** The only ways: the late line is next, or nothing is under way and a straggler writes. */
  predicate CanComeLate(s: State, q: nat) {
    if s.conn.inbound == [] then Straggler(s, q)
    else s.conn.inbound[0].NoIdle? && s.conn.inbound[0].target < q
  }

  /** Period `q` is over, or running and safe from a late line. */
  predicate OnTime(s: State, q: nat) {
    s.period >= q &&
    (|| s.broken
     || ((forall i | 0 <= i < |s.conn.inbound| :: s.conn.inbound[i].Idle? ==> s.conn.inbound[i].period > q)
         && (s.conn.mode == Idling(q) ==> !CanComeLate(s, q))))
  }

  lemma OnTimeKept(s: State, a: Action, q: nat)
    requires OnTime(s, q) && Enabled(s, a)
    ensures OnTime(Apply(s, a), q)
  {
    match a
    case Worker(fail) => StepWire(s, fail); WorkerOnTime(s, WorkerStep(s, fail), q);
    case _ => OthersOnTime(s, a, q);
  }

  lemma WorkerOnTime(s: State, t: State, q: nat)
    requires OnTime(s, q) && WorkerWire(s, t)
    ensures OnTime(t, q)
  {
    if s.conn.inbound != [] { assert (s.conn.inbound + [Command])[0] == s.conn.inbound[0]; }
  }

  lemma OthersOnTime(s: State, a: Action, q: nat)
    requires OnTime(s, q) && Enabled(s, a) && !a.Worker?
    ensures OnTime(Apply(s, a), q)
  {
    match a
    case WriteNoIdle(c) => WriteOnTime(s, c, q);
    case ServerLine => LineOnTime(s, q);
    case _ =>
  }

  lemma WriteOnTime(s: State, c: nat, q: nat)
    requires OnTime(s, q) && Enabled(s, WriteNoIdle(c))
    ensures OnTime(Apply(s, WriteNoIdle(c)), q)
  {
  }

  lemma LineOnTime(s: State, q: nat)
    requires OnTime(s, q) && Enabled(s, ServerLine)
    ensures OnTime(Apply(s, ServerLine), q)
  {
  }

  lemma {:induction false} OnTimeAlong(s: State, acts: seq<Action>, q: nat)
    requires OnTime(s, q) && Legal(s, acts)
    ensures !LateArrives(After(s, acts), q)
    decreases |acts|
  {
    if acts != [] {
      OnTimeKept(s, acts[0], q);
      OnTimeAlong(Apply(s, acts[0]), acts[1..], q);
    }
  }

  lemma ComesLate(s: State)
    requires !s.broken && s.conn.mode == Idling(s.period) && s.interrupt == s.connId
    requires CanComeLate(s, s.period)
    ensures CanBeLate(s)
  {
    if s.conn.inbound != [] {
      assert Legal(s, []) && LateArrives(After(s, []), s.period);
    } else {
      var c :| c in s.callers && s.callers[c].Won? && s.callers[c].period < s.period;
      Then(s, [], WriteNoIdle(c));
      assert Legal(s, [] + [WriteNoIdle(c)]) && LateArrives(After(s, [] + [WriteNoIdle(c)]), s.period);
    }
  }

  lemma NeverComesLate(s: State)
    requires OnTime(s, s.period)
    ensures !CanBeLate(s)
  {
    forall more | Legal(s, more) ensures !LateArrives(After(s, more), s.period) {
      OnTimeAlong(s, more, s.period);
    }
  }

  /** While MPD idles it is in the newest period, with nothing but `noidle` unread. */
  lemma WhileIdling(s: State)
    requires WireInv(s) && Tagged(s) && !s.broken && s.conn.mode.Idling?
    ensures s.conn.mode == Idling(s.period) && s.interrupt == s.connId && NoIdleLines(s.conn.inbound)
  {
    InsignificantLines(s.conn.inbound);
  }

  /** Over all runs: while MPD idles, a `noidle` of an earlier period can come to end this one
      if and only if it is the next unread line, or no line is unread and some caller that won
      an earlier period has not written its own. */
  lemma LateNoIdleExactly(acts: seq<Action>)
    requires IsRun(acts) && !End(acts).broken && End(acts).conn.mode.Idling?
    ensures End(acts).conn.mode.period == End(acts).period
    ensures CanBeLate(End(acts)) <==> CanComeLate(End(acts), End(acts).period)
  {
    var s := End(acts);
    InvReached(acts);
    TaggedAlong(INIT, acts);
    WhileIdling(s);
    if CanComeLate(s, s.period) { ComesLate(s); } else { NeverComesLate(s); }
  }

  /** No `noidle` behind the start of period `q` was meant for an earlier one. */
  predicate Clean(q: nat, running: bool, lines: seq<Line>)
    decreases lines
  {
    lines != [] ==>
      && (running && lines[0].NoIdle? ==> lines[0].target >= q)
      && Clean(q, running || lines[0] == Idle(q), lines[1..])
  }

  lemma {:induction false} CleanAppend(q: nat, running: bool, lines: seq<Line>, line: Line)
    requires Clean(q, running, lines) && (line.NoIdle? ==> line.target >= q)
    ensures Clean(q, running, lines + [line])
    decreases lines
  {
    if lines == [] {
      assert lines + [line] == [line] && [line][1..] == [];
    } else {
      CleanAppend(q, running || lines[0] == Idle(q), lines[1..], line);
      assert (lines + [line])[1..] == lines[1..] + [line];
    }
  }

  lemma {:induction false} CleanRelax(q: nat, lines: seq<Line>)
    requires Clean(q, true, lines)
    ensures Clean(q, false, lines)
  {
    if lines != [] {
      if lines[0] != Idle(q) { CleanRelax(q, lines[1..]); }
    }
  }

  lemma {:induction false} CleanStart(q: nat, lines: seq<Line>)
    requires NoIdleLines(lines)
    ensures Clean(q, false, lines + [Idle(q)])
  {
    if lines == [] {
      assert lines + [Idle(q)] == [Idle(q)] && [Idle(q)][1..] == [];
    } else {
      CleanStart(q, lines[1..]);
      assert (lines + [Idle(q)])[1..] == lines[1..] + [Idle(q)];
    }
  }

  /** Nobody is left to write a late line for period `q`. */
  predicate Unchased(s: State, q: nat) {
    && s.period >= q && !Straggler(s, q)
    && (s.broken || Clean(q, s.conn.mode == Idling(q), s.conn.inbound))
  }

  lemma UnchasedKept(s: State, a: Action, q: nat)
    requires Unchased(s, q) && Enabled(s, a)
    ensures Unchased(Apply(s, a), q)
  {
    match a
    case Worker(fail) => StepWire(s, fail); WorkerUnchased(s, WorkerStep(s, fail), q);
    case _ => OthersUnchased(s, a, q);
  }

  lemma WorkerUnchased(s: State, t: State, q: nat)
    requires Unchased(s, q) && WorkerWire(s, t)
    ensures Unchased(t, q)
  {
    if !s.broken {
      var running := s.conn.mode == Idling(q);
      CleanAppend(q, running, s.conn.inbound, Command);
      CleanAppend(q, running, s.conn.inbound, Idle(s.period + 1));
      CleanAppend(q, running, s.conn.inbound, NoIdle(s.period));
    }
  }

  lemma OthersUnchased(s: State, a: Action, q: nat)
    requires Unchased(s, q) && Enabled(s, a) && !a.Worker?
    ensures Unchased(Apply(s, a), q)
  {
    var running := s.conn.mode == Idling(q);
    if !s.broken && running { CleanRelax(q, s.conn.inbound); }
    match a
    case WriteNoIdle(c) =>
      if !s.broken { CleanAppend(q, running, s.conn.inbound, NoIdle(s.callers[c].period)); }
    case ServerLine =>
      if !s.broken && (running || s.conn.inbound[0] == Idle(q)) { CleanRelax(q, s.conn.inbound[1..]); }
    case _ =>
  }

  lemma {:induction false} UnchasedAlong(s: State, acts: seq<Action>, q: nat)
    requires Unchased(s, q) && Legal(s, acts)
    ensures !LateArrives(After(s, acts), q)
    decreases |acts|
  {
    if acts != [] {
      UnchasedKept(s, acts[0], q);
      UnchasedAlong(Apply(s, acts[0]), acts[1..], q);
    }
  }

  /** Winners won a period that had begun. */
  predicate WonBefore(s: State) {
    forall c | c in s.callers :: s.callers[c].Won? ==> s.callers[c].period <= s.period
  }

  lemma {:induction false} WonBeforeAlong(s: State, acts: seq<Action>)
    requires WonBefore(s) && Legal(s, acts)
    ensures WonBefore(After(s, acts))
    decreases |acts|
  {
    if acts != [] {
      WonBeforeKept(s, acts[0]);
      WonBeforeAlong(Apply(s, acts[0]), acts[1..]);
    }
  }

  lemma WonBeforeKept(s: State, a: Action)
    requires WonBefore(s) && Enabled(s, a)
    ensures WonBefore(Apply(s, a))
  {
    if a.Worker? { StepWire(s, a.fail); }
  }

  /** The same, told before the period begins: a `noidle` of an earlier period can end it if and
      only if some caller that won one is still to write when the worker enters idle. */
  lemma StragglersExactly(acts: seq<Action>)
    requires IsRun(acts) && End(acts).pc.Enter? && !End(acts).broken
    ensures CanBeLate(Apply(End(acts), Worker(false))) <==> SomeWon(End(acts).callers)
  {
    var s := End(acts);
    var t := Apply(s, Worker(false));
    InvReached(acts);
    WonBeforeAlong(INIT, acts);
    InsignificantLines(s.conn.inbound);
    if SomeWon(s.callers) {
      var c :| c in s.callers && s.callers[c].Won?;
      var more := StragglerWrites(s, t, c);
    } else {
      CleanStart(t.period, s.conn.inbound);
      forall more | Legal(t, more) ensures !LateArrives(After(t, more), t.period) {
        UnchasedAlong(t, more, t.period);
      }
    }
  }

  /** MPD reads up to the new period, then the caller writes. */
  lemma StragglerWrites(s: State, t: State, c: nat) returns (more: seq<Action>)
    requires s.pc.Enter? && !s.broken && Quiet(s.conn) && s.interrupt == s.connId
    requires c in s.callers && s.callers[c].Won? && s.callers[c].period <= s.period
    requires t == IdleStep(s, false)
    ensures Legal(t, more) && LateArrives(After(t, more), t.period)
  {
    ServeAllWrite(s.conn, Idle(t.period));
    QuietServed(s.conn);
    ServerDrains(t);
    more := ServerLines(|t.conn.inbound|);
    Then(t, more, WriteNoIdle(c));
    more := more + [WriteNoIdle(c)];
  }

  lemma {:induction false} QuietServed(c: Conn)
    requires Quiet(c)
    ensures ServeAll(c) == FRESH_CONN
    decreases |c.inbound|
  {
    if c.inbound != [] {
      ExchangeStep(c, 0);
      QuietServed(Serve(c));
    }
  }

  /** The worker's way from the loop test into idle, and its two halves. */
  const TO_ENTER: seq<Action> := [Worker(false), Worker(false), Worker(false), Worker(false)]
  const FROM_ENTER: seq<Action> := [Worker(false), Worker(false), Worker(false)]
  const INTO_IDLE: seq<Action> := TO_ENTER + FROM_ENTER

  lemma ReachEnter(s: State)
    requires s.pc.Top? && !s.shuttingDown && !s.skipRecv && s.queue == [SkipToIdle]
    ensures Legal(s, TO_ENTER)
    ensures After(s, TO_ENTER) == s.(pc := Enter, queue := [], taken := s.taken + [Handled(SkipToIdle)])
  {
    WorkerSteps(s, s.(pc := Recv), s.(pc := Drain, queue := [], taken := s.taken + [Handled(SkipToIdle)]),
      s.(pc := Drained, queue := [], taken := s.taken + [Handled(SkipToIdle)]));
  }

  lemma EnterToRead(s: State)
    requires s.pc.Enter? && s.queue == []
    ensures Legal(s, FROM_ENTER)
    ensures After(s, FROM_ENTER) == s.(pc := Read, idleState := IsIdle, period := s.period + 1,
              conn := Write(s.conn, Idle(s.period + 1)))
  {
    var w := Worker(false);
    Then(s, [], w);
    Then(s, [w], w);
    Then(s, [w, w], w);
  }

  lemma ReachIdle(s: State)
    requires s.pc.Top? && !s.shuttingDown && !s.skipRecv && s.queue == [SkipToIdle]
    ensures Legal(s, INTO_IDLE)
    ensures After(s, INTO_IDLE) == s.(pc := Read, queue := [], taken := s.taken + [Handled(SkipToIdle)],
              idleState := IsIdle, period := s.period + 1, conn := Write(s.conn, Idle(s.period + 1)))
  {
    ReachEnter(s);
    EnterToRead(After(s, TO_ENTER));
    LegalConcat(s, TO_ENTER, FROM_ENTER);
  }

  /** A `noidle` can be late: here one meant for the first period is about to end the second.
      The protocol allows it, and the worker then waits for the next message. */
  lemma DelayedNoIdleEndsLaterPeriod() returns (acts: seq<Action>)
    ensures IsRun(acts)
    ensures var s := End(acts);
      s.pc.Read? && s.conn.mode == Idling(2) && s.conn.inbound == [NoIdle(1)] && LateArrives(s, s.period)
  {
    var a1 := FirstPeriod();
    var s1 := End(a1);
    var b := LateWinner(s1);
    LegalConcat(INIT, a1, b);
    var a2 := a1 + b;
    ReachIdle(End(a2));
    LegalConcat(INIT, a2, INTO_IDLE);
    var a3 := a2 + INTO_IDLE;
    assert End(a3).conn == Conn([Idle(2)], Ready, []);
    Then(INIT, a3, ServerLine);
    Then(INIT, a3 + [ServerLine], WriteNoIdle(1));
    acts := a3 + [ServerLine] + [WriteNoIdle(1)];
  }

  lemma FirstPeriod() returns (acts: seq<Action>)
    ensures IsRun(acts)
    ensures End(acts) == INIT.(pc := Read, taken := [Handled(SkipToIdle)], sent := [SkipToIdle],
              idleState := IsIdle, period := 1, conn := Conn([Idle(1)], Ready, []))
  {
    acts := [Send(0, SkipToIdle), Cas(0)];
    Then(INIT, [], Send(0, SkipToIdle));
    Then(INIT, [Send(0, SkipToIdle)], Cas(0));
    assert End(acts).callers == map[];
    ReachIdle(End(acts));
    LegalConcat(INIT, acts, INTO_IDLE);
    acts := acts + INTO_IDLE;
  }

  /** A caller wins period 1 and stalls; an event ends the period before it writes. */
  lemma LateWinner(s: State) returns (acts: seq<Action>)
    requires s.pc.Read? && !s.broken && !s.shuttingDown && !s.skipRecv && s.queue == []
    requires s.conn == Conn([Idle(1)], Ready, []) && s.callers == map[]
    requires s.idleState == IsIdle && s.period == 1 && s.interrupt == s.connId
    ensures Legal(s, acts)
    ensures var t := After(s, acts);
      && t.pc.Top? && !t.broken && !t.shuttingDown && !t.skipRecv && t.queue == [SkipToIdle]
      && t.conn == FRESH_CONN && t.callers == map[1 := Won(1)] && t.period == 1
      && t.interrupt == t.connId
  {
    var w := Worker(false);
    Then(s, [], Send(1, SkipToIdle));
    Then(s, [Send(1, SkipToIdle)], Cas(1));
    acts := [Send(1, SkipToIdle), Cas(1)];
    Then(s, acts, ServerLine);
    Then(s, acts + [ServerLine], ServerEvent);
    acts := acts + [ServerLine] + [ServerEvent];
    Then(s, acts, w);
    Then(s, acts + [w], w);
    acts := acts + [w] + [w];
  }
}
