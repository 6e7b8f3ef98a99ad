/**
 What becomes of the messages sent to rmpcd's worker: handled, thrown away while it reconnects,
 handled although a shutdown was taken, or left behind at its end.
 */
module AsyncMessages {
  import opened Wire
  import opened AsyncClient

  /** Every message sent was taken, in the order of sending, or is still queued. */
  lemma QueueConserved(acts: seq<Action>)
    requires IsRun(acts)
    ensures End(acts).sent == Messages(End(acts).taken) + End(acts).queue
  {
    InvReached(acts);
  }

  function HandledOf(ts: seq<Taken>): seq<Msg> {
    if ts == [] then []
    else HandledOf(ts[..|ts| - 1]) + if ts[|ts| - 1].Handled? then [ts[|ts| - 1].msg] else []
  }

  function DiscardedOf(ts: seq<Taken>): seq<Msg> {
    if ts == [] then []
    else DiscardedOf(ts[..|ts| - 1]) + if ts[|ts| - 1].Discarded? then [ts[|ts| - 1].msg] else []
  }

  /** The event happens somewhere along the run. */
  ghost predicate Sometime(s: State, acts: seq<Action>, event: (State, Action) -> bool)
    requires Legal(s, acts)
    decreases |acts|
  {
    acts != [] && (event(s, acts[0]) || Sometime(Apply(s, acts[0]), acts[1..], event))
  }

  /** While reconnecting, before each attempt, the queue is thrown away up to a shutdown. */
  predicate ThrowsAway(s: State, a: Action) {
    a.Worker? && s.pc.Discard? && s.queue != [] && !s.queue[0].Shutdown?
  }

  lemma {:induction false} DiscardedAlong(s: State, acts: seq<Action>)
    requires Legal(s, acts)
    ensures |DiscardedOf(After(s, acts).taken)| >= |DiscardedOf(s.taken)|
    ensures |DiscardedOf(After(s, acts).taken)| > |DiscardedOf(s.taken)| <==> Sometime(s, acts, ThrowsAway)
    decreases |acts|
  {
    if acts != [] {
      DiscardedAlong(Apply(s, acts[0]), acts[1..]);
      var a := acts[0];
      StepBooks(s, a);
      DiscardedAppend(s.taken, if Handles(s, a) then [Handled(s.queue[0])]
                               else if ThrowsAway(s, a) then [Discarded(s.queue[0])] else []);
    }
  }

  /** The other places that take a message handle it; a shutdown while reconnecting is acknowledged. */
  predicate Handles(s: State, a: Action) {
    a.Worker? && s.queue != [] && (s.pc.Recv? || s.pc.Drain? || (s.pc.Discard? && s.queue[0].Shutdown?))
  }

  predicate HandlesNext(s: State) {
    (s.pc.Recv? || s.pc.Drain?) && s.queue != []
  }

  /** What a step does to the messages taken and to the worker's end. */
  predicate Books(s: State, t: State, a: Action) {
    && t.taken == s.taken + (if Handles(s, a) then [Handled(s.queue[0])]
                             else if ThrowsAway(s, a) then [Discarded(s.queue[0])] else [])
    && t.shuttingDown == (s.shuttingDown || (a.Worker? && HandlesNext(s) && s.queue[0].Shutdown?))
    && t.afterShutdown == s.afterShutdown + (if a.Worker? && HandlesNext(s) && s.shuttingDown then 1 else 0)
    && (s.pc.Exited? ==> t.pc.Exited?)
    && (t.pc.Exited? ==> s.pc.Exited? || s.shuttingDown || (Handles(s, a) && s.queue[0].Shutdown?))
    && (Handles(s, a) && s.queue[0].Shutdown? ==> t.shuttingDown || t.pc.Exited?)
  }

  lemma StepBooks(s: State, a: Action)
    requires Enabled(s, a)
    ensures Books(s, Apply(s, a), a)
  {
    match a
    case Worker(fail) => WorkerBooks(s, fail);
    case _ => OtherBooks(s, a);
  }

  lemma OtherBooks(s: State, a: Action)
    requires Enabled(s, a) && !a.Worker?
    ensures Books(s, Apply(s, a), a)
  {
  }

  lemma WorkerBooks(s: State, fail: bool)
    requires WorkerEnabled(s, fail)
    ensures Books(s, WorkerStep(s, fail), Worker(fail))
  {
    if HandlesNext(s) { HandleBooks(s, s.pc.Recv?, fail); }
    else if Serves(s.pc) { ServeBooks(s, fail); }
    else if Idles(s.pc) { IdleBooks(s, fail); }
    else { RecoverBooks(s, fail); }
  }

  lemma HandleBooks(s: State, first: bool, fail: bool)
    requires HandlesNext(s)
    ensures Books(s, HandleMsg(s, first), Worker(fail))
  {
  }

  lemma ServeBooks(s: State, fail: bool)
    requires WorkerEnabled(s, fail) && Serves(s.pc) && !HandlesNext(s)
    ensures Books(s, ServeStep(s, fail), Worker(fail))
  {
  }

  lemma IdleBooks(s: State, fail: bool)
    requires WorkerEnabled(s, fail) && Idles(s.pc)
    ensures Books(s, IdleStep(s, fail), Worker(fail))
  {
  }

  lemma RecoverBooks(s: State, fail: bool)
    requires WorkerEnabled(s, fail) && !Serves(s.pc) && !Idles(s.pc)
    ensures Books(s, RecoverStep(s, fail), Worker(fail))
  {
  }

  lemma DiscardedAppend(ts: seq<Taken>, more: seq<Taken>)
    requires |more| <= 1
    ensures DiscardedOf(ts + more) == DiscardedOf(ts) + if more != [] && more[0].Discarded? then [more[0].msg] else []
  {
    if more == [] { assert ts + more == ts; } else { assert (ts + more)[..|ts|] == ts; }
  }

  lemma {:induction false} SplitByFate(ts: seq<Taken>)
    ensures |HandledOf(ts)| + |DiscardedOf(ts)| == |ts|
    ensures DiscardedOf(ts) == [] ==> HandledOf(ts) == Messages(ts)
  {
    if ts != [] {
      SplitByFate(ts[..|ts| - 1]);
      assert Messages(ts) == Messages(ts[..|ts| - 1]) + [ts[|ts| - 1].msg];
    }
  }

  /** The messages handled and those still queued are the messages sent, in order, if and only
      if none was thrown away while reconnecting. */
  lemma NothingLostExactly(acts: seq<Action>)
    requires IsRun(acts)
    ensures End(acts).sent == HandledOf(End(acts).taken) + End(acts).queue <==> !Sometime(INIT, acts, ThrowsAway)
  {
    QueueConserved(acts);
    DiscardedAlong(INIT, acts);
    SplitByFate(End(acts).taken);
  }

  /** Nothing taken was a shutdown, except in the end, at most one message after it. */
  predicate LastWords(s: State) {
    if s.shuttingDown || s.pc.Exited? then
      var k := |s.taken| - 1 - s.afterShutdown;
      0 <= k && s.taken[k] == Handled(Shutdown) && forall j | 0 <= j < k :: !s.taken[j].msg.Shutdown?
    else forall j | 0 <= j < |s.taken| :: !s.taken[j].msg.Shutdown?
  }

  lemma LastWordsKept(s: State, a: Action)
    requires Inv(s) && LastWords(s) && Enabled(s, a)
    ensures LastWords(Apply(s, a))
  {
    StepBooks(s, a);
    BooksKeepLastWords(s, Apply(s, a), a);
  }

  lemma BooksKeepLastWords(s: State, t: State, a: Action)
    requires QueueInv(s) && LastWords(s) && Books(s, t, a) && (a.Worker? && s.pc.Recv? ==> !s.shuttingDown)
    requires s.pc.Exited? ==> !a.Worker?
    ensures LastWords(t)
  {
  }

  lemma {:induction false} LastWordsAlong(s: State, acts: seq<Action>)
    requires Inv(s) && LastWords(s) && Legal(s, acts)
    ensures LastWords(After(s, acts))
    decreases |acts|
  {
    if acts != [] {
      StepKeeps(s, acts[0]);
      LastWordsKept(s, acts[0]);
      LastWordsAlong(Apply(s, acts[0]), acts[1..]);
    }
  }

  /** When the worker has ended, exactly the messages behind the first shutdown are left in the
      queue, without the first of them if that one was still handled. */
  lemma LeftAtExit(acts: seq<Action>) returns (k: nat)
    requires IsRun(acts) && End(acts).pc.Exited?
    ensures var s := End(acts);
      && k < |s.sent| && s.sent[k] == Shutdown && Shutdown !in s.sent[..k]
      && k + 1 + s.afterShutdown <= |s.sent| && s.queue == s.sent[k + 1 + s.afterShutdown..]
  {
    InvReached(acts);
    LastWordsAlong(INIT, acts);
    var s := End(acts);
    k := |s.taken| - 1 - s.afterShutdown;
    assert forall j | 0 <= j < |s.taken| :: s.sent[j] == s.taken[j].msg;
  }

  /** At most one message is handled after a shutdown was acknowledged. */
  lemma AtMostOneAfterShutdown(acts: seq<Action>)
    requires IsRun(acts)
    ensures End(acts).afterShutdown <= 1
  {
    InvReached(acts);
  }

  /** The draining loop finds a message although a shutdown has been taken: it was taken by
      `blocking_recv`, behind which the flag is not tested. */
  predicate TakesAfterShutdown(s: State, a: Action) {
    a.Worker? && s.pc.Drain? && s.shuttingDown && s.queue != []
  }

  lemma AfterShutdownStep(s: State, a: Action)
    requires Inv(s) && Enabled(s, a)
    ensures Apply(s, a).afterShutdown == s.afterShutdown + if TakesAfterShutdown(s, a) then 1 else 0
  {
    StepBooks(s, a);
  }

  lemma {:induction false} AfterShutdownAlong(s: State, acts: seq<Action>)
    requires Inv(s) && Legal(s, acts)
    ensures After(s, acts).afterShutdown >= s.afterShutdown
    ensures After(s, acts).afterShutdown > s.afterShutdown <==> Sometime(s, acts, TakesAfterShutdown)
    decreases |acts|
  {
    if acts != [] {
      StepKeeps(s, acts[0]);
      AfterShutdownStep(s, acts[0]);
      AfterShutdownAlong(Apply(s, acts[0]), acts[1..]);
    }
  }

  /** Over every run, whatever callers do in between: a message is handled after a shutdown if
      and only if one is in the queue when the draining loop first looks behind a shutdown
      taken by `blocking_recv`. */
  lemma MessageAfterShutdownExactly(acts: seq<Action>)
    requires IsRun(acts)
    ensures End(acts).afterShutdown == 1 <==> Sometime(INIT, acts, TakesAfterShutdown)
  {
    AtMostOneAfterShutdown(acts);
    AfterShutdownAlong(INIT, acts);
  }

  /** It happens, even with nothing behind the shutdown when it is taken. */
  lemma MessageAfterShutdownHappens() returns (acts: seq<Action>)
    ensures IsRun(acts)
    ensures End(acts).taken == [Handled(Shutdown), Handled(SkipToIdle)] && End(acts).afterShutdown == 1
    ensures exists i | 0 <= i < |acts| :: acts[i] == Send(1, SkipToIdle)
              && IsRun(acts[..i]) && End(acts[..i]).taken == [Handled(Shutdown)] && End(acts[..i]).queue == []
  {
    var w := Worker(false);
    Then(INIT, [], Send(0, Shutdown));
    Then(INIT, [Send(0, Shutdown)], w);
    Then(INIT, [Send(0, Shutdown)] + [w], w);
    var before := [Send(0, Shutdown)] + [w] + [w];
    assert End(before).taken == [Handled(Shutdown)] && End(before).queue == [];
    Then(INIT, before, Send(1, SkipToIdle));
    Then(INIT, before + [Send(1, SkipToIdle)], w);
    acts := before + [Send(1, SkipToIdle)] + [w];
    assert acts[..3] == before && acts[3] == Send(1, SkipToIdle);
  }
}
