/**
 rmpcd's worker after its connection has failed: it listens on the new one before it waits for a
 message, and a shutdown ends it however often reconnecting fails.
 */
module AsyncRecovery {
  import opened Wire
  import opened AsyncClient

  // ---- a reconnected worker idles at once

  /** A worker's successful step along a run. */
  lemma Extend(acts: seq<Action>)
    requires IsRun(acts) && WorkerEnabled(End(acts), false)
    ensures IsRun(acts + [Worker(false)]) && End(acts + [Worker(false)]) == WorkerStep(End(acts), false)
  {
    Then(INIT, acts, Worker(false));
  }

  /** The lines of an idle period entered with messages queued, or with none. */
  function Requests(period: nat, waiting: bool): seq<Line> {
    if waiting then [Idle(period), NoIdle(period)] else [Idle(period)]
  }

  /** The steps still due until the reply of the first idle on the new connection is awaited. */
  function UntilRead(pc: Pc): nat {
    match pc
    case Reconnect => 8
    case CloneStream => 7
    case Top => 6
    case Enter => 5
    case StoreIdle => 4
    case Recheck => 3
    case SelfCas => 2
    case SelfWrite => 1
    case _ => 0
  }

  /** On a new connection, with nobody's compare-and-swap in between, on the way to that read. */
  predicate Resuming(s: State, connId: nat, period: nat) {
    && !s.shuttingDown && !s.broken && s.connId == connId
    && match s.pc
       case CloneStream => s.skipRecv && s.conn == FRESH_CONN && s.period == period
       case Top => s.skipRecv && s.conn == FRESH_CONN && s.period == period && s.interrupt == connId
       case Enter => s.conn == FRESH_CONN && s.period == period && s.interrupt == connId
       case StoreIdle => Asked(s, connId, period, false)
       case Recheck => Asked(s, connId, period, false) && s.idleState.IsIdle?
       case SelfCas => Asked(s, connId, period, false) && s.idleState.IsIdle? && s.queue != []
       case SelfWrite => Asked(s, connId, period, false) && s.queue != []
       case Read => Asked(s, connId, period, s.queue != [])
       case _ => false
  }

  predicate Asked(s: State, connId: nat, period: nat, woken: bool) {
    && s.period == period + 1 && s.interrupt == connId
    && s.conn == Conn(Requests(period + 1, woken), Ready, [])
  }

  lemma ResumingStep(s: State, connId: nat, period: nat)
    requires Resuming(s, connId, period) && !s.pc.Read?
    ensures WorkerEnabled(s, false)
    ensures var t := WorkerStep(s, false);
      && Resuming(t, connId, period) && UntilRead(t.pc) < UntilRead(s.pc)
      && t.queue == s.queue && t.taken == s.taken
  {
  }

  lemma {:induction false} Resume(acts: seq<Action>, connId: nat, period: nat) returns (more: seq<Action>)
    requires IsRun(acts) && Resuming(End(acts), connId, period)
    ensures forall a | a in more :: a == Worker(false)
    ensures IsRun(acts + more) && End(acts + more).pc.Read? && Resuming(End(acts + more), connId, period)
    ensures End(acts + more).queue == End(acts).queue && End(acts + more).taken == End(acts).taken
    decreases UntilRead(End(acts).pc)
  {
    if End(acts).pc.Read? {
      more := [];
      assert acts + more == acts;
    } else {
      ResumingStep(End(acts), connId, period);
      Extend(acts);
      var rest := Resume(acts + [Worker(false)], connId, period);
      more := [Worker(false)] + rest;
      assert acts + more == acts + [Worker(false)] + rest;
    }
  }

  /** A worker that reconnects goes straight on to idle: in every run, its successful steps alone
      ask for idle on the new connection and come to wait for the reply, with no message taken;
      with messages queued it has also asked for the wakeup. */
  lemma ReconnectIdles(acts: seq<Action>) returns (more: seq<Action>)
    requires IsRun(acts) && End(acts).pc.Reconnect?
    ensures forall a | a in more :: a == Worker(false)
    ensures IsRun(acts + more)
    ensures var s, t := End(acts), End(acts + more);
      && t.pc.Read? && !t.broken && t.connId == s.connId + 1 && t.interrupt == t.connId
      && t.conn == Conn(Requests(s.period + 1, s.queue != []), Ready, [])
      && t.period == s.period + 1 && t.queue == s.queue && t.taken == s.taken
  {
    InvReached(acts);
    Extend(acts);
    var rest := Resume(acts + [Worker(false)], End(acts).connId + 1, End(acts).period);
    more := [Worker(false)] + rest;
    assert acts + more == acts + [Worker(false)] + rest;
  }

  // ---- it never waits for a message on a connection on which it has not idled

  /** Whether the worker has asked for idle on the connection it is on; `before` is the answer at
      the start. */
  function IdledHere(s: State, acts: seq<Action>, before: bool): bool
    requires Legal(s, acts)
    decreases |acts|
  {
    if acts == [] then before
    else
      var next := Apply(s, acts[0]);
      IdledHere(next, acts[1..], next.connId == s.connId && (before || next.period > s.period))
  }

  /** Where a worker can be that has reconnected and not yet asked. */
  predicate Unasked(s: State) {
    || (s.skipRecv && (s.pc.CloneStream? || s.pc.Top?)) || s.pc.Discard? || s.pc.Reconnect? || s.pc.Exited?
    || s.pc.Enter? || s.pc.Failed?
  }

  /** A step leaves such a worker so, unless it asks for idle; a new connection makes one. */
  predicate Follows(s: State, t: State) {
    && t.period >= s.period
    && (t.connId != s.connId ==> Unasked(t) && t.connId > s.connId)
    && (Unasked(s) && t.period == s.period ==> Unasked(t))
  }

  lemma UnaskedStep(s: State, a: Action)
    requires Inv(s) && Enabled(s, a)
    ensures Follows(s, Apply(s, a))
  {
    match a
    case Worker(fail) =>
      if Serves(s.pc) { ServeFollows(s, fail); }
      else if Idles(s.pc) { IdleFollows(s, fail); }
      else { RecoverFollows(s, fail); }
    case _ => OtherFollows(s, a);
  }

  lemma ServeFollows(s: State, fail: bool)
    requires WorkerEnabled(s, fail) && Serves(s.pc)
    ensures Follows(s, ServeStep(s, fail))
  {
  }

  lemma IdleFollows(s: State, fail: bool)
    requires WorkerEnabled(s, fail) && Idles(s.pc)
    ensures Follows(s, IdleStep(s, fail))
  {
  }

  lemma RecoverFollows(s: State, fail: bool)
    requires WorkerEnabled(s, fail) && !Serves(s.pc) && !Idles(s.pc)
    ensures Follows(s, RecoverStep(s, fail))
  {
  }

  lemma OtherFollows(s: State, a: Action)
    requires Enabled(s, a) && !a.Worker?
    ensures Follows(s, Apply(s, a))
  {
  }

  lemma {:induction false} UnaskedAlong(s: State, acts: seq<Action>, before: bool)
    requires Inv(s) && Legal(s, acts) && (s.connId == 0 || before || Unasked(s))
    ensures var t := After(s, acts); t.connId == 0 || IdledHere(s, acts, before) || Unasked(t)
    decreases |acts|
  {
    if acts != [] {
      var a := acts[0];
      var t := Apply(s, a);
      StepKeeps(s, a);
      UnaskedStep(s, a);
      UnaskedAlong(t, acts[1..], t.connId == s.connId && (before || t.period > s.period));
    }
  }

  /** In every run: on a reconnected connection the worker waits for a message, or runs one, only
      if it has idled there. */
  lemma ListensBeforeWaiting(acts: seq<Action>)
    requires IsRun(acts) && End(acts).connId > 0
    requires End(acts).pc.Recv? || End(acts).pc.Drain? || End(acts).pc.Running? || End(acts).pc.RunAwait?
    ensures IdledHere(INIT, acts, false)
  {
    UnaskedAlong(INIT, acts, false);
  }

  // ---- a shutdown is heard while reconnecting fails

  function FirstShutdown(queue: seq<Msg>): (k: nat)
    requires Shutdown in queue
    ensures k < |queue| && queue[k] == Shutdown && Shutdown !in queue[..k]
  {
    if queue[0].Shutdown? then 0 else 1 + FirstShutdown(queue[1..])
  }

  /** What becomes of a queue up to its first shutdown. */
  function Cleared(queue: seq<Msg>): seq<Taken>
    requires Shutdown in queue
  {
    if queue[0].Shutdown? then [Handled(Shutdown)] else [Discarded(queue[0])] + Cleared(queue[1..])
  }

  lemma {:induction false} ClearedInOrder(queue: seq<Msg>)
    requires Shutdown in queue
    ensures var r, k := Cleared(queue), FirstShutdown(queue);
      |r| == k + 1 && r[k] == Handled(Shutdown) && forall i | 0 <= i < k :: r[i] == Discarded(queue[i])
  {
    if !queue[0].Shutdown? { ClearedInOrder(queue[1..]); }
  }

  /** How far a failing worker is from looking at the queue. */
  function UntilDiscard(pc: Pc): nat {
    match pc
    case StoreNotIdle(_) => 2
    case Discard => 0
    case _ => 1
  }

  predicate Recovers(pc: Pc) {
    (pc.StoreNotIdle? && !pc.ok) || pc.Failed? || pc.Discard? || pc.Reconnect? || pc.CloneStream?
  }

  lemma RecoversStep(s: State)
    requires Recovers(s.pc) && Shutdown in s.queue
    ensures WorkerEnabled(s, true)
    ensures var t := WorkerStep(s, true);
      if s.pc.Discard? && s.queue[0].Shutdown? then
        t.pc.Exited? && t.queue == s.queue[1..] && t.taken == s.taken + [Handled(Shutdown)]
      else if s.pc.Discard? then
        t.pc.Discard? && t.queue == s.queue[1..] && t.taken == s.taken + [Discarded(s.queue[0])]
      else Recovers(t.pc) && t.queue == s.queue && t.taken == s.taken && UntilDiscard(t.pc) < UntilDiscard(s.pc)
  {
  }

  /** `u` is the end of a worker that recovered at `s`. */
  predicate Ends(s: State, u: State)
    requires Shutdown in s.queue
  {
    && u.pc.Exited? && u.queue == s.queue[FirstShutdown(s.queue) + 1..]
    && u.taken == s.taken + Cleared(s.queue)
  }

  lemma ClearedLater(q: seq<Msg>)
    requires Shutdown in q && !q[0].Shutdown?
    ensures Shutdown in q[1..] && Cleared(q) == [Discarded(q[0])] + Cleared(q[1..])
    ensures q[FirstShutdown(q) + 1..] == q[1..][FirstShutdown(q[1..]) + 1..]
  {
    assert q == [q[0]] + q[1..];
  }

  lemma Regroup(a: seq<Taken>, x: Taken, b: seq<Taken>)
    ensures a + ([x] + b) == a + [x] + b
  {
  }

  lemma EndsBefore(s: State, t: State, u: State)
    requires Shutdown in s.queue && !s.queue[0].Shutdown? && t.queue == s.queue[1..] && Shutdown in t.queue
    requires t.taken == s.taken + [Discarded(s.queue[0])] && Ends(t, u)
    ensures Ends(s, u)
  {
    ClearedLater(s.queue);
    Regroup(s.taken, Discarded(s.queue[0]), Cleared(t.queue));
  }

  /** A shutdown sent while the worker recovers ends it, even if every further attempt fails: what
      is queued before it is thrown away, it is acknowledged, and what is behind it stays. */
  lemma {:induction false} ShutdownHeard(s: State) returns (more: seq<Action>)
    requires Recovers(s.pc) && Shutdown in s.queue
    ensures forall a | a in more :: a == Worker(true)
    ensures Legal(s, more) && Ends(s, After(s, more))
    decreases UntilDiscard(s.pc), |s.queue|
  {
    RecoversStep(s);
    var t := WorkerStep(s, true);
    if t.pc.Exited? {
      more := [Worker(true)];
      OneAction(s, Worker(true));
    } else {
      assert s.queue == [s.queue[0]] + s.queue[1..];
      var rest := ShutdownHeard(t);
      more := [Worker(true)] + rest;
      assert more[1..] == rest;
      if s.pc.Discard? { EndsBefore(s, t, After(t, rest)); }
    }
  }

  function AllDiscarded(queue: seq<Msg>): seq<Taken> {
    seq(|queue|, i requires 0 <= i < |queue| => Discarded(queue[i]))
  }

  /** Without a shutdown in the queue a failed worker throws the queue away and tries to reconnect. */
  lemma {:induction false} TriesAgain(s: State) returns (more: seq<Action>)
    requires Recovers(s.pc) && !s.pc.CloneStream? && !s.pc.Reconnect? && Shutdown !in s.queue
    ensures forall a | a in more :: a == Worker(false)
    ensures Legal(s, more)
    ensures var t := After(s, more);
      t.pc.Reconnect? && t.queue == [] && t.taken == s.taken + AllDiscarded(s.queue)
    decreases UntilDiscard(s.pc), |s.queue|
  {
    var a := Worker(false);
    TriesStep(s);
    var t := WorkerStep(s, false);
    if t.pc.Reconnect? {
      more := [a];
      OneAction(s, a);
    } else {
      var rest := TriesAgain(t);
      more := [a] + rest;
      assert more[1..] == rest;
      if s.pc.Discard? { DiscardedFirst(s.taken, s.queue); }
    }
  }

  lemma DiscardedFirst(taken: seq<Taken>, queue: seq<Msg>)
    requires queue != []
    ensures taken + AllDiscarded(queue) == taken + [Discarded(queue[0])] + AllDiscarded(queue[1..])
  {
  }

  lemma TriesStep(s: State)
    requires Recovers(s.pc) && !s.pc.CloneStream? && !s.pc.Reconnect? && Shutdown !in s.queue
    ensures WorkerEnabled(s, false)
    ensures var t := WorkerStep(s, false);
      if s.pc.Discard? && s.queue == [] then t.pc.Reconnect? && t.queue == [] && t.taken == s.taken
      else if s.pc.Discard? then
        t.pc.Discard? && t.queue == s.queue[1..] && t.taken == s.taken + [Discarded(s.queue[0])]
      else
        Recovers(t.pc) && !t.pc.CloneStream? && !t.pc.Reconnect? && t.queue == s.queue && t.taken == s.taken
        && UntilDiscard(t.pc) < UntilDiscard(s.pc)
  {
  }

  // ---- when the worker stands still

  /** No step of the worker is possible but a read that fails. */
  predicate StandsStill(s: State) {
    !WorkerEnabled(s, false) && (s.pc.Read? || !WorkerEnabled(s, true))
  }

  /** In every run the worker stands still exactly when it has ended, waits for a message and there
      is none, or waits for a reply that has not come; and for a closure's reply nothing more is
      needed than that MPD reads what is written. */
  lemma StandsStillExactly(acts: seq<Action>)
    requires IsRun(acts)
    ensures var s := End(acts);
      StandsStill(s) <==>
        || s.pc.Exited?
        || (s.pc.Recv? && s.queue == [])
        || (s.pc.Read? && (s.broken || s.conn.outbound == []))
        || (s.pc.RunAwait? && !s.broken && s.conn.outbound == [])
    ensures StandsStill(End(acts)) && End(acts).pc.RunAwait? ==> Woken(End(acts).conn)
  {
    InvReached(acts);
    var s := End(acts);
    if s.pc.RunAwait? && !s.broken { CommandAnswered(s.conn); }
  }
}
