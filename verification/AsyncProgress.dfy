/**
 rmpcd's worker goes on: a queued message is taken from wherever the worker is, a shutdown ends
 it, and a closure gets the replies to its commands. Callers only finish what they have begun, MPD
 only reads what is written, and nothing fails but what must.
 */
module AsyncProgress {
  import opened Wire
  import opened AsyncClient
  import opened AsyncRecovery

  /** A step that is bound to come: no message, event or break, and no failure but the end of a
      closure and a read on a broken connection. */
  predicate Helps(s: State, a: Action) {
    match a
    case Worker(fail) => fail ==> s.pc.Running? || (s.pc.Read? && s.broken)
    case ServerLine => true
    case Cas(_) => true
    case WriteNoIdle(_) => true
    case _ => false
  }

  predicate HelpsAlong(s: State, acts: seq<Action>)
    requires Legal(s, acts)
    decreases |acts|
  {
    acts != [] ==> Helps(s, acts[0]) && HelpsAlong(Apply(s, acts[0]), acts[1..])
  }

  lemma {:induction false} HelpsConcat(s: State, a: seq<Action>, b: seq<Action>)
    requires Legal(s, a) && Legal(After(s, a), b) && HelpsAlong(s, a) && HelpsAlong(After(s, a), b)
    ensures Legal(s, a + b) && HelpsAlong(s, a + b) && After(s, a + b) == After(After(s, a), b)
    decreases |a|
  {
    if a == [] {
      assert a + b == b;
    } else {
      HelpsConcat(Apply(s, a[0]), a[1..], b);
      assert (a + b)[1..] == a[1..] + b;
    }
  }

  lemma First(s: State, a: Action, rest: seq<Action>)
    requires Enabled(s, a) && Helps(s, a) && Legal(Apply(s, a), rest) && HelpsAlong(Apply(s, a), rest)
    ensures Legal(s, [a] + rest) && HelpsAlong(s, [a] + rest)
    ensures After(s, [a] + rest) == After(Apply(s, a), rest)
  {
    assert ([a] + rest)[1..] == rest;
  }

  // ---- the callers finish

  function Trying(callers: map<nat, Caller>): set<nat> {
    set c | c in callers && callers[c].Sent?
  }

  /** Any caller's own next step brings it nearer to the end of its call. */
  lemma CallerMoves(s: State, c: nat) returns (a: Action)
    requires c in s.callers
    ensures Enabled(s, a) && (a == Cas(c) || a == WriteNoIdle(c))
    ensures var t := Apply(s, a);
      && t.pc == s.pc && t.queue == s.queue && t.taken == s.taken && t.shuttingDown == s.shuttingDown
      && (|t.callers| < |s.callers| || (t.callers.Keys == s.callers.Keys && |Trying(t.callers)| < |Trying(s.callers)|))
  {
    var keys := s.callers.Keys;
    a := if s.callers[c].Sent? then Cas(c) else WriteNoIdle(c);
    var t := Apply(s, a);
    if c in t.callers {
      assert t.callers.Keys == keys;
      assert Trying(t.callers) == Trying(s.callers) - {c} && c in Trying(s.callers);
    } else {
      assert t.callers.Keys == keys - {c};
    }
  }

  // ---- the worker goes on

  /** Steps until the worker looks at a queue that is not empty. */
  function UntilLook(s: State): nat {
    match s.pc
    case Recv => 0
    case Drain => 0
    case Discard => 0
    case Running(_) => 1
    case RunAwait(_) => 2
    case Top => if s.skipRecv then 13 else 1
    case Drained => 13
    case Failed => 1
    case StoreNotIdle(_) => 2
    case Read => 3
    case SelfWrite => 4
    case SelfCas => 5
    case Recheck => 6
    case StoreIdle => 7
    case Enter => 8
    case CloneStream => 14
    case Reconnect => 15
    case Exited => 0
  }

  predicate Looks(pc: Pc) {
    pc.Recv? || pc.Drain? || pc.Discard?
  }

  /** The first message has been taken, and a shutdown taken as one. */
  predicate Took(s: State, t: State)
    requires s.queue != []
  {
    && t.queue == s.queue[1..]
    && (t.taken == s.taken + [Handled(s.queue[0])] || t.taken == s.taken + [Discarded(s.queue[0])])
    && (if s.queue[0].Shutdown? then (t.shuttingDown || t.pc.Exited?) else !t.shuttingDown && !t.pc.Exited?)
  }

  lemma LookTakes(s: State)
    requires Inv(s) && Looks(s.pc) && s.queue != [] && !s.shuttingDown
    ensures WorkerEnabled(s, false) && Took(s, WorkerStep(s, false))
  {
  }

  /** The same message is still first, and the worker is nearer to it. */
  predicate GoesOn(s: State, t: State) {
    && t.queue == s.queue && t.taken == s.taken && t.callers == s.callers && !t.shuttingDown && !t.pc.Exited?
    && UntilLook(t) < UntilLook(s)
  }

  /** The worker has to wait for MPD. */
  predicate Waits(s: State) {
    !s.broken && s.conn.outbound == [] && (s.pc.Read? || s.pc.RunAwait?)
  }

  function Choice(s: State): bool {
    s.pc.Running? || (s.pc.Read? && s.broken)
  }

  lemma WorkerGoesOn(s: State)
    requires Inv(s) && !Looks(s.pc) && !s.pc.Exited? && s.queue != [] && !s.shuttingDown && !Waits(s)
    ensures WorkerEnabled(s, Choice(s)) && GoesOn(s, WorkerStep(s, Choice(s)))
  {
    if Serves(s.pc) { ServeGoesOn(s); }
    else if Idles(s.pc) { IdleGoesOn(s); }
    else { RecoverGoesOn(s); }
  }

  lemma ServeGoesOn(s: State)
    requires Inv(s) && Serves(s.pc) && !Looks(s.pc) && s.queue != [] && !s.shuttingDown && !Waits(s)
    ensures WorkerEnabled(s, Choice(s)) && GoesOn(s, ServeStep(s, Choice(s)))
  {
  }

  lemma IdleGoesOn(s: State)
    requires Inv(s) && Idles(s.pc) && s.queue != [] && !s.shuttingDown && !Waits(s)
    ensures WorkerEnabled(s, Choice(s)) && GoesOn(s, IdleStep(s, Choice(s)))
  {
  }

  lemma RecoverGoesOn(s: State)
    requires Inv(s) && !Serves(s.pc) && !Idles(s.pc) && !Looks(s.pc) && !s.pc.Exited?
    requires s.queue != [] && !s.shuttingDown
    ensures WorkerEnabled(s, Choice(s)) && GoesOn(s, RecoverStep(s, Choice(s)))
  {
  }

  lemma ReplyComes(s: State)
    requires Inv(s) && Waits(s) && (s.pc.Read? ==> s.queue != [] && s.callers == map[])
    ensures s.conn.inbound != []
  {
    if s.pc.RunAwait? { CommandAnswered(s.conn); }
    assert Woken(s.conn);
  }

  /** From wherever the worker is, the next message is taken. */
  lemma {:induction false} NextTaken(s: State) returns (more: seq<Action>)
    requires Inv(s) && s.queue != [] && !s.pc.Exited? && !s.shuttingDown
    ensures Legal(s, more) && HelpsAlong(s, more) && Took(s, After(s, more)) && Inv(After(s, more))
    decreases |s.callers|, |Trying(s.callers)|, UntilLook(s), |s.conn.inbound|
  {
    var a;
    if Looks(s.pc) {
      LookTakes(s);
      a := Worker(false);
      StepKeeps(s, a);
      First(s, a, []);
      more := [a] + [];
      return;
    } else if !Waits(s) {
      WorkerGoesOn(s);
      a := Worker(Choice(s));
    } else if s.pc.Read? && s.callers != map[] {
      var c :| c in s.callers;
      a := CallerMoves(s, c);
    } else {
      ReplyComes(s);
      a := ServerLine;
    }
    StepKeeps(s, a);
    var rest := NextTaken(Apply(s, a));
    First(s, a, rest);
    more := [a] + rest;
  }

  /** The wakeup arrives wherever the callers are: in every run, while a message is queued and no
      shutdown has been taken, callers that finish, MPD's reading and the worker's own steps take
      the message. */
  lemma MessageTaken(acts: seq<Action>) returns (more: seq<Action>)
    requires IsRun(acts) && End(acts).queue != [] && !End(acts).pc.Exited? && !End(acts).shuttingDown
    ensures Legal(End(acts), more) && HelpsAlong(End(acts), more)
    ensures var s, t := End(acts), After(End(acts), more);
      && t.queue == s.queue[1..]
      && (t.taken == s.taken + [Handled(s.queue[0])] || t.taken == s.taken + [Discarded(s.queue[0])])
  {
    InvReached(acts);
    more := NextTaken(End(acts));
  }

  // ---- a shutdown ends the worker

  function UntilEnd(pc: Pc): nat {
    match pc
    case Drain => 4
    case RunAwait(_) => 3
    case Running(_) => 2
    case Drained => 1
    case _ => 0
  }

  lemma EndComes(s: State)
    requires Inv(s) && s.shuttingDown && !s.pc.Exited? && !Waits(s)
    ensures WorkerEnabled(s, Choice(s))
    ensures var t := WorkerStep(s, Choice(s)); t.shuttingDown && UntilEnd(t.pc) < UntilEnd(s.pc)
  {
  }

  lemma {:induction false} ShutdownEnds(s: State) returns (more: seq<Action>)
    requires Inv(s) && s.shuttingDown
    ensures Legal(s, more) && HelpsAlong(s, more) && After(s, more).pc.Exited?
    decreases UntilEnd(s.pc), |s.conn.inbound|
  {
    if s.pc.Exited? {
      return [];
    }
    var a;
    if Waits(s) {
      ReplyComes(s);
      a := ServerLine;
    } else {
      EndComes(s);
      a := Worker(Choice(s));
    }
    StepKeeps(s, a);
    var rest := ShutdownEnds(Apply(s, a));
    First(s, a, rest);
    more := [a] + rest;
  }

  lemma {:induction false} EndReached(s: State) returns (more: seq<Action>)
    requires Inv(s) && (s.pc.Exited? || s.shuttingDown || Shutdown in s.queue)
    ensures Legal(s, more) && HelpsAlong(s, more) && After(s, more).pc.Exited?
    decreases |s.queue|
  {
    if s.pc.Exited? {
      more := [];
    } else if s.shuttingDown {
      more := ShutdownEnds(s);
    } else {
      var first := NextTaken(s);
      assert s.queue == [s.queue[0]] + s.queue[1..];
      var rest := EndReached(After(s, first));
      HelpsConcat(s, first, rest);
      more := first + rest;
    }
  }

  /** A shutdown is honoured: in every run, once one is queued or taken, the worker comes to its
      end, whatever is queued before it and whatever state the connection is in. */
  lemma ShutdownHonoured(acts: seq<Action>) returns (more: seq<Action>)
    requires IsRun(acts) && (End(acts).shuttingDown || Shutdown in End(acts).queue)
    ensures Legal(End(acts), more) && HelpsAlong(End(acts), more) && After(End(acts), more).pc.Exited?
  {
    InvReached(acts);
    more := EndReached(End(acts));
  }

  // ---- a closure is served

  /** Commands a closure sends along a run. */
  function CommandsAlong(s: State, acts: seq<Action>): nat
    requires Legal(s, acts)
    decreases |acts|
  {
    if acts == [] then 0
    else (if acts[0] == Worker(false) && s.pc.Running? then 1 else 0) + CommandsAlong(Apply(s, acts[0]), acts[1..])
  }

  /** A closure can send any number of commands, and gets the reply to each before the next. */
  lemma {:induction false} ClosureServed(s: State, n: nat) returns (more: seq<Action>)
    requires Inv(s) && !s.broken && (s.pc.Running? || (s.pc.RunAwait? && n > 0))
    ensures Legal(s, more) && HelpsAlong(s, more)
    ensures CommandsAlong(s, more) == if s.pc.RunAwait? then n - 1 else n
    ensures var t := After(s, more);
      && t.pc == AfterMsg(s.pc.first, s.shuttingDown) && !t.broken && Quiet(t.conn)
      && t.queue == s.queue && t.taken == s.taken
    decreases n, s.pc.Running?, |s.conn.inbound|
  {
    var a, left := Worker(s.pc.Running? && n == 0), n;
    if Waits(s) {
      ReplyComes(s);
      a := ServerLine;
    } else if s.pc.RunAwait? {
      left := n - 1;
    }
    StepKeeps(s, a);
    if a == Worker(true) {
      First(s, a, []);
      more := [a] + [];
    } else {
      var rest := ClosureServed(Apply(s, a), left);
      First(s, a, rest);
      more := [a] + rest;
      assert more[1..] == rest;
    }
  }
}
