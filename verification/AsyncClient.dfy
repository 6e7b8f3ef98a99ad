/**
 rmpcd's AsyncClient: one worker thread owns the connection, any number of
 callers queue messages and interrupt its idle with a compare-and-swap on a
 three-valued atomic.

 Every step below is one access to shared state (queue, atomic, interrupt
 stream, socket). Memory is sequentially consistent and a line is written at once.
 */
module AsyncClient {
  import opened Wire

  datatype Msg = Run(id: nat) | Shutdown | SkipToIdle

  datatype IdleState = NotIdle | IsIdle | Preempted

  /** What became of a message the worker took. */
  datatype Taken = Handled(msg: Msg) | Discarded(msg: Msg)

  /** A caller that has sent its message and is inside `preempt_idle`:
      `Sent` is before the compare-and-swap; `Won(p)` won it in period p and has
      not yet written its `noidle`. A finished caller is in no map. */
  datatype Caller = Sent | Won(period: nat)

  /** Where the worker is. `first` tells the message of `blocking_recv` from those of
      the draining loop: only after the latter is `shutting_down` tested. */
  datatype Pc =
    | Top
    | Recv
    | Running(first: bool)
    | RunAwait(first: bool)
    | Drain
    | Drained
    | Enter
    | StoreIdle
    | Recheck
    | SelfCas
    | SelfWrite
    | Read
    | StoreNotIdle(ok: bool)
    | Failed
    | Discard
    | Reconnect
    | CloneStream
    | Exited

  datatype State = State(
    pc: Pc,
    shuttingDown: bool,
    skipRecv: bool,
    queue: seq<Msg>,
    idleState: IdleState,
    callers: map<nat, Caller>,
    conn: Conn,
    broken: bool,
    connId: nat,
    interrupt: nat,
    // history, read by no step
    period: nat,
    winners: seq<nat>,
    sent: seq<Msg>,
    taken: seq<Taken>,
    afterShutdown: nat)

  const INIT := State(Top, false, false, [], NotIdle, map[], FRESH_CONN, false, 0, 0, 0, [], [], [], 0)

  /** `Worker(fail)`: `fail` picks the error result where a call can fail, and inside a
      closure whether it sends another command. */
  datatype Action =
    | Worker(fail: bool)
    | Send(caller: nat, msg: Msg)
    | Cas(caller: nat)
    | WriteNoIdle(caller: nat)
    | ServerLine
    | ServerEvent
    | Break

  predicate Enabled(s: State, a: Action) {
    match a
    case Worker(fail) => WorkerEnabled(s, fail)
    case Send(c, _) => c !in s.callers && !s.pc.Exited?
    case Cas(c) => c in s.callers && s.callers[c].Sent?
    case WriteNoIdle(c) => c in s.callers && s.callers[c].Won?
    case ServerLine => !s.broken && s.conn.inbound != []
    case ServerEvent => !s.broken && s.conn.mode.Idling?
    case Break => true
  }

  predicate WorkerEnabled(s: State, fail: bool) {
    match s.pc
    case Exited => false
    case Recv => s.queue != []
    case RunAwait(_) => s.broken || s.conn.outbound != []
    case Read => fail || (!s.broken && s.conn.outbound != [])
    case _ => true
  }

  function Apply(s: State, a: Action): State
    requires Enabled(s, a)
  {
    match a
    case Worker(fail) => WorkerStep(s, fail)
    case Send(c, m) => s.(queue := s.queue + [m], sent := s.sent + [m], callers := s.callers[c := Sent])
    case Cas(c) =>
      if s.idleState == IsIdle then
        s.(idleState := Preempted, callers := s.callers[c := Won(s.period)],
           winners := s.winners + [s.period])
      else
        s.(callers := s.callers - {c})
    case WriteNoIdle(c) =>
      InterruptWrite(s, s.callers[c].period).(callers := s.callers - {c})
    case ServerLine => s.(conn := Serve(s.conn))
    case ServerEvent => s.(conn := Notify(s.conn))
    case Break => s.(broken := true)
  }

  /** A `noidle` through the interrupt stream; a line for an earlier connection is lost. */
  function InterruptWrite(s: State, target: nat): State {
    if s.interrupt == s.connId then s.(conn := Write(s.conn, NoIdle(target))) else s
  }

  function TakeMsg(s: State, discard: bool): State
    requires s.queue != []
  {
    s.(queue := s.queue[1..], taken := s.taken + [if discard then Discarded(s.queue[0]) else Handled(s.queue[0])])
  }

  /** `handle_msg` on the next message. */
  function HandleMsg(s: State, first: bool): State
    requires s.queue != []
  {
    var m := s.queue[0];
    var t := TakeMsg(s, false).(afterShutdown := s.afterShutdown + if s.shuttingDown then 1 else 0);
    match m
    case Run(_) => t.(pc := Running(first))
    case SkipToIdle => t.(pc := AfterMsg(first, t.shuttingDown))
    case Shutdown => t.(shuttingDown := true, pc := AfterMsg(first, true))
  }

  /** After a drained message the flag ends the draining; after the first it does not. */
  function AfterMsg(first: bool, shuttingDown: bool): Pc {
    if !first && shuttingDown then Drained else Drain
  }

  function WorkerStep(s: State, fail: bool): State
    requires WorkerEnabled(s, fail)
  {
    if Serves(s.pc) then ServeStep(s, fail)
    else if Idles(s.pc) then IdleStep(s, fail)
    else RecoverStep(s, fail)
  }

  predicate Serves(pc: Pc) {
    pc.Top? || pc.Recv? || pc.Running? || pc.RunAwait? || pc.Drain? || pc.Drained?
  }

  /** Asked for idle and not yet read the reply. `Enter` and `StoreNotIdle` frame it. */
  predicate Idles(pc: Pc) {
    pc.Enter? || InPeriod(pc) || pc.StoreNotIdle?
  }

  predicate InPeriod(pc: Pc) {
    pc.StoreIdle? || pc.Recheck? || pc.SelfCas? || pc.SelfWrite? || pc.Read?
  }

  /** Taking messages and running closures. */
  function ServeStep(s: State, fail: bool): State
    requires WorkerEnabled(s, fail) && Serves(s.pc)
  {
    match s.pc
    case Top =>
      if s.shuttingDown then s.(pc := Exited)
      else if s.skipRecv then s.(skipRecv := false, pc := Enter)
      else s.(pc := Recv)
    case Recv => HandleMsg(s, true)
    case Running(first) =>
      if fail then s.(pc := AfterMsg(first, s.shuttingDown))
      else s.(pc := RunAwait(first), conn := Write(s.conn, Command))
    case RunAwait(first) =>
      if s.broken then s.(pc := Running(first))
      else s.(pc := Running(first), conn := s.conn.(outbound := s.conn.outbound[1..]))
    case Drain => if s.queue == [] then s.(pc := Drained) else HandleMsg(s, false)
    case _ => if s.shuttingDown then s.(pc := Exited) else s.(skipRecv := false, pc := Enter)
  }

  /** One idle period, from `enter_idle` to the store after the reply. */
  function IdleStep(s: State, fail: bool): State
    requires WorkerEnabled(s, fail) && Idles(s.pc)
  {
    match s.pc
    case Enter =>
      if fail then s.(pc := Failed)
      else s.(pc := StoreIdle, period := s.period + 1, conn := Write(s.conn, Idle(s.period + 1)))
    case StoreIdle => s.(idleState := IsIdle, pc := Recheck)
    case Recheck => s.(pc := if s.queue != [] then SelfCas else Read)
    case SelfCas =>
      if s.idleState == IsIdle then
        s.(idleState := Preempted, winners := s.winners + [s.period], pc := SelfWrite)
      else s.(pc := Read)
    case SelfWrite => InterruptWrite(s, s.period).(pc := Read)
    case Read =>
      if fail then s.(pc := StoreNotIdle(false))
      else s.(pc := StoreNotIdle(true), conn := s.conn.(outbound := s.conn.outbound[1..]))
    case StoreNotIdle(ok) => s.(idleState := NotIdle, pc := if ok then Top else Failed)
  }

  /** The error arm: discard the queue, sleep, reconnect, replace the interrupt stream. */
  function RecoverStep(s: State, fail: bool): State
    requires WorkerEnabled(s, fail) && !Serves(s.pc) && !Idles(s.pc)
  {
    match s.pc
    case Failed => s.(idleState := NotIdle, pc := Discard)
    case Discard =>
      if s.queue == [] then s.(pc := Reconnect)
      else if s.queue[0].Shutdown? then TakeMsg(s, false).(pc := Exited)
      else TakeMsg(s, true)
    case Reconnect =>
      if fail then s.(pc := Discard)
      else s.(skipRecv := true, conn := FRESH_CONN, broken := false, connId := s.connId + 1, pc := CloneStream)
    case CloneStream =>
      if fail then s.(pc := Discard) else s.(interrupt := s.connId, pc := Top)
  }

  // ---- runs

  /** `acts` can be taken one after the other from `s`. */
  predicate Legal(s: State, acts: seq<Action>)
    decreases |acts|
  {
    acts != [] ==> Enabled(s, acts[0]) && Legal(Apply(s, acts[0]), acts[1..])
  }

  function After(s: State, acts: seq<Action>): State
    requires Legal(s, acts)
    decreases |acts|
  {
    if acts == [] then s else After(Apply(s, acts[0]), acts[1..])
  }

  // ---- invariant

  /** The interrupt stream may belong to an earlier connection. */
  predicate Detached(pc: Pc) {
    pc.Discard? || pc.Reconnect? || pc.CloneStream? || pc.Exited?
  }

  /** The connection has been given up. */
  predicate GivenUp(pc: Pc) {
    (pc.StoreNotIdle? && !pc.ok) || pc.Failed? || pc.Discard? || pc.Reconnect? || pc.Exited?
  }

  /** What is in flight, by the worker's place. */
  predicate WireInv(s: State) {
    || s.broken
    || (if GivenUp(s.pc) then Harmless(s.conn)
        else if InPeriod(s.pc) then IdleExchange(s.conn, s.period)
        else if s.pc.RunAwait? then CommandExchange(s.conn)
        else Quiet(s.conn))
  }

  predicate AtomicInv(s: State) {
    && (s.idleState != NotIdle ==> (InPeriod(s.pc) && !s.pc.StoreIdle?) || s.pc.StoreNotIdle?)
    && (InPeriod(s.pc) && !s.pc.StoreIdle? ==> s.idleState != NotIdle)
    && (s.pc.SelfWrite? ==> s.idleState == Preempted)
    && (Detached(s.pc) || s.interrupt == s.connId)
    && (s.skipRecv ==> Detached(s.pc) || s.pc.Top?)
  }

  /** Strictly ascending and below `bound`. */
  predicate Ascending(ws: seq<nat>, bound: nat) {
    && (forall i, j | 0 <= i < j < |ws| :: ws[i] < ws[j])
    && (forall i | 0 <= i < |ws| :: ws[i] < bound)
  }

  /** Each period is won at most once, in order; the running one is open while `IsIdle`. */
  predicate WinnersInv(s: State) {
    Ascending(s.winners, if s.idleState.IsIdle? || s.pc.StoreIdle? then s.period else s.period + 1)
  }

  /** Some caller will still try the compare-and-swap. */
  predicate SomeSent(callers: map<nat, Caller>) {
    exists c | c in callers :: callers[c].Sent?
  }

  /** Some caller will still write a `noidle`. */
  predicate SomeWon(callers: map<nat, Caller>) {
    exists c | c in callers :: callers[c].Won?
  }

  /** The heart of "send, then compare-and-swap" against "store, then re-check". */
  predicate WakeInv(s: State) {
    && (s.pc.Read? && s.idleState.IsIdle? && s.queue != [] ==> SomeSent(s.callers))
    && ((s.pc.Recheck? || s.pc.SelfCas? || s.pc.Read?) && s.idleState.Preempted? && !s.broken ==>
          SomeWon(s.callers) || Woken(s.conn))
  }

  function Messages(ts: seq<Taken>): seq<Msg> {
    seq(|ts|, i requires 0 <= i < |ts| => ts[i].msg)
  }

  /** Every message is accounted for, in order, and at most one follows a shutdown. */
  predicate QueueInv(s: State) {
    && s.sent == Messages(s.taken) + s.queue
    && (if s.shuttingDown then
          || (s.afterShutdown == 0 && (s.pc.Drain? || s.pc.Drained? || s.pc.Exited?))
          || (s.afterShutdown == 1 && (s.pc == Running(false) || s.pc == RunAwait(false)
                                       || s.pc.Drained? || s.pc.Exited?))
        else s.afterShutdown == 0)
  }

  predicate Inv(s: State) {
    WireInv(s) && AtomicInv(s) && WinnersInv(s) && WakeInv(s) && QueueInv(s)
  }

  lemma TakeConserves(taken: seq<Taken>, t: Taken, queue: seq<Msg>)
    requires queue != [] && t.msg == queue[0]
    ensures Messages(taken + [t]) + queue[1..] == Messages(taken) + queue
  {
    assert Messages(taken + [t]) == Messages(taken) + [queue[0]];
    assert queue == [queue[0]] + queue[1..];
  }

  lemma AscendingAppend(ws: seq<nat>, w: nat)
    requires Ascending(ws, w)
    ensures Ascending(ws + [w], w + 1)
  {
  }

  lemma AscendingRelax(ws: seq<nat>, low: nat, high: nat)
    requires Ascending(ws, low) && low <= high
    ensures Ascending(ws, high)
  {
  }

  lemma HandleKeeps(s: State, first: bool)
    requires Inv(s) && s.queue != []
    requires if first then s.pc.Recv? else s.pc.Drain?
    ensures Inv(HandleMsg(s, first))
  {
    TakeConserves(s.taken, Handled(s.queue[0]), s.queue);
  }

  lemma ClosureKeeps(s: State, fail: bool)
    requires Inv(s) && WorkerEnabled(s, fail) && (s.pc.Running? || s.pc.RunAwait?)
    ensures Inv(ServeStep(s, fail))
  {
    if s.pc.Running? && !fail {
      SignificantAppend(s.conn.inbound, Command);
      assert !s.broken ==> Quiet(s.conn) && CommandExchange(Write(s.conn, Command));
    } else if s.pc.RunAwait? && !s.broken {
      assert CommandExchange(s.conn) && s.conn.outbound == [CommandReply];
    }
  }

  lemma ServeKeeps(s: State, fail: bool)
    requires Inv(s) && WorkerEnabled(s, fail) && Serves(s.pc)
    ensures Inv(ServeStep(s, fail))
  {
    if s.pc.Running? || s.pc.RunAwait? {
      ClosureKeeps(s, fail);
    } else if s.pc.Recv? || (s.pc.Drain? && s.queue != []) {
      HandleKeeps(s, s.pc.Recv?);
    }
  }

  lemma StoreKeeps(s: State, fail: bool)
    requires Inv(s) && WorkerEnabled(s, fail) && (s.pc.StoreIdle? || s.pc.Recheck?)
    ensures Inv(IdleStep(s, fail))
  {
  }

  lemma EnterKeeps(s: State, fail: bool)
    requires Inv(s) && WorkerEnabled(s, fail) && s.pc.Enter?
    ensures Inv(IdleStep(s, fail))
  {
    SignificantAppend(s.conn.inbound, Idle(s.period + 1));
    AscendingRelax(s.winners, s.period + 1, s.period + 2);
  }

  lemma IdleKeeps(s: State, fail: bool)
    requires Inv(s) && WorkerEnabled(s, fail) && Idles(s.pc)
    ensures Inv(IdleStep(s, fail))
  {
    if s.pc.Enter? {
      EnterKeeps(s, fail);
    } else if s.pc.StoreIdle? || s.pc.Recheck? {
      StoreKeeps(s, fail);
    } else {
      if s.pc.SelfWrite? && !s.broken { NoIdleWakes(s.conn, s.period, s.period); }
      if s.idleState.IsIdle? { AscendingAppend(s.winners, s.period); }
    }
  }

  lemma RecoverKeeps(s: State, fail: bool)
    requires Inv(s) && WorkerEnabled(s, fail) && !Serves(s.pc) && !Idles(s.pc)
    ensures Inv(RecoverStep(s, fail))
  {
    if s.queue != [] {
      TakeConserves(s.taken, Handled(s.queue[0]), s.queue);
      TakeConserves(s.taken, Discarded(s.queue[0]), s.queue);
    }
  }

  lemma SendKeeps(s: State, c: nat, m: Msg)
    requires Inv(s) && Enabled(s, Send(c, m))
    ensures Inv(Apply(s, Send(c, m)))
  {
    var t := Apply(s, Send(c, m));
    assert t.callers[c].Sent?;
    OthersStay(s.callers, t.callers, c);
    assert s.sent + [m] == Messages(s.taken) + (s.queue + [m]);
  }

  lemma CasKeeps(s: State, c: nat)
    requires Inv(s) && Enabled(s, Cas(c))
    ensures Inv(Apply(s, Cas(c)))
  {
    var t := Apply(s, Cas(c));
    OthersStay(s.callers, t.callers, c);
    if s.idleState.IsIdle? {
      assert t.callers[c].Won?;
      AscendingAppend(s.winners, s.period);
    }
  }

  lemma WriteKeeps(s: State, c: nat)
    requires Inv(s) && Enabled(s, WriteNoIdle(c))
    ensures Inv(Apply(s, WriteNoIdle(c)))
  {
    var t := Apply(s, WriteNoIdle(c));
    OthersStay(s.callers, t.callers, c);
    StrayNoIdle(s, s.callers[c].period);
  }

  /** A `noidle` disturbs no exchange, and wakes the one it finds. */
  lemma StrayNoIdle(s: State, target: nat)
    requires WireInv(s)
    ensures WireInv(InterruptWrite(s, target))
    ensures InPeriod(s.pc) && !s.broken && s.interrupt == s.connId ==> Woken(InterruptWrite(s, target).conn)
  {
    SignificantAppend(s.conn.inbound, NoIdle(target));
    if InPeriod(s.pc) && !s.broken { NoIdleWakes(s.conn, s.period, target); }
  }

  /** What the other callers are about to do does not depend on one of them. */
  lemma OthersStay(before: map<nat, Caller>, now: map<nat, Caller>, c: nat)
    requires forall d | d in before && d != c :: d in now && now[d] == before[d]
    ensures SomeSent(before) ==> SomeSent(now) || (c in before && before[c].Sent?)
    ensures SomeWon(before) ==> SomeWon(now) || (c in before && before[c].Won?)
  {
    if SomeSent(before) {
      var d :| d in before && before[d].Sent?;
      if d != c { assert now[d].Sent?; }
    }
    if SomeWon(before) {
      var d :| d in before && before[d].Won?;
      if d != c { assert now[d].Won?; }
    }
  }

  lemma WorldKeeps(s: State, a: Action)
    requires Inv(s) && Enabled(s, a) && (a.ServerLine? || a.ServerEvent? || a.Break?)
    ensures Inv(Apply(s, a))
  {
    match a
    case ServerLine => ExchangeStep(s.conn, s.period);
    case ServerEvent => ServeAllGrows(Notify(s.conn));
    case Break =>
  }

  lemma StepKeeps(s: State, a: Action)
    requires Inv(s) && Enabled(s, a)
    ensures Inv(Apply(s, a))
  {
    match a
    case Worker(fail) =>
      if Serves(s.pc) { ServeKeeps(s, fail); }
      else if Idles(s.pc) { IdleKeeps(s, fail); }
      else { RecoverKeeps(s, fail); }
    case Send(c, m) => SendKeeps(s, c, m);
    case Cas(c) => CasKeeps(s, c);
    case WriteNoIdle(c) => WriteKeeps(s, c);
    case _ => WorldKeeps(s, a);
  }

  lemma {:induction false} RunKeeps(s: State, acts: seq<Action>)
    requires Inv(s) && Legal(s, acts)
    ensures Inv(After(s, acts))
    decreases |acts|
  {
    if acts != [] {
      StepKeeps(s, acts[0]);
      RunKeeps(Apply(s, acts[0]), acts[1..]);
    }
  }

  // ---- main results

  /** Every run from a fresh connection. */
  predicate IsRun(acts: seq<Action>) {
    Legal(INIT, acts)
  }

  function End(acts: seq<Action>): State
    requires IsRun(acts)
  {
    After(INIT, acts)
  }

  lemma InvReached(acts: seq<Action>)
    requires IsRun(acts)
    ensures Inv(End(acts))
  {
    RunKeeps(INIT, acts);
  }

  /** The server never sees an illegal line; a closure runs only while the server is out of
      idle with no reply unread; the worker reads exactly the reply of its own period; and
      every period is won by at most one compare-and-swap. */
  lemma WireSafety(acts: seq<Action>)
    requires IsRun(acts) && !End(acts).broken
    ensures var s := End(acts);
      && s.conn.mode != Fault
      && (s.conn.mode.Idling? && s.conn.inbound != [] ==> s.conn.inbound[0].NoIdle?)
      && (s.pc.Running? ==> Quiet(s.conn))
      && (s.pc.RunAwait? && s.conn.outbound != [] ==> s.conn.outbound == [CommandReply])
      && (s.pc.Read? && s.conn.outbound != [] ==> s.conn.outbound == [IdleReply(s.period)])
      && (forall i, j | 0 <= i < j < |s.winners| :: s.winners[i] < s.winners[j])
  {
    InvReached(acts);
    var s := End(acts);
    if s.conn.inbound != [] { ExchangeStep(s.conn, s.period); }
  }

  /** No wakeup is lost. While the worker blocks on an idle reply with messages queued, some
      caller is still inside `preempt_idle`, or the lines already written make the server answer. */
  lemma NoLostWakeup(acts: seq<Action>)
    requires IsRun(acts)
    requires End(acts).pc.Read? && !End(acts).broken && End(acts).queue != []
    ensures SomeSent(End(acts).callers) || SomeWon(End(acts).callers) || Woken(End(acts).conn)
    ensures End(acts).callers == map[] ==> Woken(End(acts).conn)
  {
    InvReached(acts);
  }

  function ServerLines(n: nat): seq<Action> {
    seq(n, _ => ServerLine)
  }

  lemma {:induction false} ServerDrains(s: State)
    requires !s.broken
    ensures Legal(s, ServerLines(|s.conn.inbound|))
    ensures After(s, ServerLines(|s.conn.inbound|)) == s.(conn := ServeAll(s.conn))
    decreases |s.conn.inbound|
  {
    var n := |s.conn.inbound|;
    if n > 0 {
      ServerDrains(Apply(s, ServerLine));
      assert ServerLines(n)[1..] == ServerLines(n - 1);
    }
  }

  lemma {:induction false} LegalConcat(s: State, a: seq<Action>, b: seq<Action>)
    requires Legal(s, a) && Legal(After(s, a), b)
    ensures Legal(s, a + b) && After(s, a + b) == After(After(s, a), b)
    decreases |a|
  {
    if a == [] {
      assert a + b == b;
    } else {
      LegalConcat(Apply(s, a[0]), a[1..], b);
      assert (a + b)[1..] == a[1..] + b;
    }
  }

  /** The wakeup arrives: with every caller done, and with no event and no further caller, the
      server's own reading of what is written and four worker steps take the next message. */
  lemma WakeupDelivered(acts: seq<Action>) returns (more: seq<Action>)
    requires IsRun(acts)
    requires End(acts).pc.Read? && !End(acts).broken && End(acts).callers == map[]
    requires End(acts).queue != []
    ensures more == ServerLines(|End(acts).conn.inbound|) + [Worker(false), Worker(false), Worker(false), Worker(false)]
    ensures IsRun(acts + more)
    ensures End(acts + more).taken == End(acts).taken + [Handled(End(acts).queue[0])]
  {
    var s := End(acts);
    NoLostWakeup(acts);
    InvReached(acts);
    ServerDrains(s);
    var t := s.(conn := ServeAll(s.conn));
    FourSteps(t);
    var w := Worker(false);
    LegalConcat(s, ServerLines(|s.conn.inbound|), [w, w, w, w]);
    more := ServerLines(|s.conn.inbound|) + [w, w, w, w];
    LegalConcat(INIT, acts, more);
  }

  /** Read, store, loop test, receive. */
  lemma FourSteps(t: State)
    requires t.pc.Read? && !t.broken && t.conn.outbound != [] && t.queue != []
    requires !t.skipRecv && !t.shuttingDown
    ensures var w := Worker(false);
      && Legal(t, [w, w, w, w])
      && After(t, [w, w, w, w]).taken == t.taken + [Handled(t.queue[0])]
  {
    WorkerSteps(t, IdleStep(t, false), IdleStep(IdleStep(t, false), false), t.(pc := Recv,
      idleState := NotIdle, conn := t.conn.(outbound := t.conn.outbound[1..])));
  }

  /** Two successful worker steps through the given states. */
  lemma TwoSteps(t0: State, t1: State)
    requires WorkerEnabled(t0, false) && t1 == WorkerStep(t0, false)
    requires WorkerEnabled(t1, false)
    ensures Legal(t0, [Worker(false), Worker(false)])
    ensures After(t0, [Worker(false), Worker(false)]) == WorkerStep(t1, false)
  {
    var w := Worker(false);
    OneAction(t0, w);
    Then(t0, [w], w);
    assert [w] + [w] == [w, w];
  }

  /** Four of them. */
  lemma WorkerSteps(t0: State, t1: State, t2: State, t3: State)
    requires WorkerEnabled(t0, false) && t1 == WorkerStep(t0, false)
    requires WorkerEnabled(t1, false) && t2 == WorkerStep(t1, false)
    requires WorkerEnabled(t2, false) && t3 == WorkerStep(t2, false)
    requires WorkerEnabled(t3, false)
    ensures var w := Worker(false);
      && Legal(t0, [w, w, w, w])
      && After(t0, [w, w, w, w]) == WorkerStep(t3, false)
  {
    var w := Worker(false);
    TwoSteps(t0, t1);
    TwoSteps(t2, t3);
    LegalConcat(t0, [w, w], [w, w]);
    assert [w, w] + [w, w] == [w, w, w, w];
  }

  lemma OneAction(s: State, a: Action)
    requires Enabled(s, a)
    ensures Legal(s, [a]) && After(s, [a]) == Apply(s, a)
  {
    var u, rest := Apply(s, a), [a][1..];
    assert rest == [];
    assert Legal(u, rest) && After(u, rest) == u;
  }

  /** A run goes on by one action. */
  lemma Then(s: State, acts: seq<Action>, a: Action)
    requires Legal(s, acts) && Enabled(After(s, acts), a)
    ensures Legal(s, acts + [a]) && After(s, acts + [a]) == Apply(After(s, acts), a)
  {
    OneAction(After(s, acts), a);
    LegalConcat(s, acts, [a]);
  }
}
