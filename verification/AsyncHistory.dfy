/**
 What a run of rmpcd's worker and callers leaves in its history: who won which period, how often
 idle was asked for, whether a call has failed since the connection was last made good.
 */
module AsyncHistory {
  import opened Wire
  import opened AsyncClient
  import opened AsyncRecovery

  /** A compare-and-swap, a caller's or the worker's own, that finds the atomic idle. */
  predicate Wins(s: State, a: Action) {
    s.idleState.IsIdle? && (a.Cas? || (a.Worker? && s.pc.SelfCas?))
  }

  /** The periods won along a run, one for each compare-and-swap that succeeded. */
  function WinsAlong(s: State, acts: seq<Action>): seq<nat>
    requires Legal(s, acts)
    decreases |acts|
  {
    if acts == [] then []
    else (if Wins(s, acts[0]) then [s.period] else []) + WinsAlong(Apply(s, acts[0]), acts[1..])
  }

  /** How often idle was asked for. */
  function EntersAlong(s: State, acts: seq<Action>): nat
    requires Legal(s, acts)
    decreases |acts|
  {
    if acts == [] then 0
    else (if acts[0] == Worker(false) && s.pc.Enter? then 1 else 0) + EntersAlong(Apply(s, acts[0]), acts[1..])
  }

  predicate Recorded(s: State, t: State, a: Action) {
    && t.winners == s.winners + (if Wins(s, a) then [s.period] else [])
    && t.period == s.period + (if a == Worker(false) && s.pc.Enter? then 1 else 0)
  }

  lemma StepRecorded(s: State, a: Action)
    requires Enabled(s, a)
    ensures Recorded(s, Apply(s, a), a)
  {
    match a
    case Worker(fail) =>
      if Serves(s.pc) { ServeRecorded(s, fail); }
      else if Idles(s.pc) { IdleRecorded(s, fail); }
      else { RecoverRecorded(s, fail); }
    case _ => OtherRecorded(s, a);
  }

  lemma ServeRecorded(s: State, fail: bool)
    requires WorkerEnabled(s, fail) && Serves(s.pc)
    ensures Recorded(s, ServeStep(s, fail), Worker(fail))
  {
  }

  lemma IdleRecorded(s: State, fail: bool)
    requires WorkerEnabled(s, fail) && Idles(s.pc)
    ensures Recorded(s, IdleStep(s, fail), Worker(fail))
  {
  }

  lemma RecoverRecorded(s: State, fail: bool)
    requires WorkerEnabled(s, fail) && !Serves(s.pc) && !Idles(s.pc)
    ensures Recorded(s, RecoverStep(s, fail), Worker(fail))
  {
  }

  lemma OtherRecorded(s: State, a: Action)
    requires Enabled(s, a) && !a.Worker?
    ensures Recorded(s, Apply(s, a), a)
  {
  }

  lemma {:induction false} RecordedAlong(s: State, acts: seq<Action>)
    requires Legal(s, acts)
    ensures After(s, acts).winners == s.winners + WinsAlong(s, acts)
    ensures After(s, acts).period == s.period + EntersAlong(s, acts)
    decreases |acts|
  {
    if acts != [] {
      StepRecorded(s, acts[0]);
      RecordedAlong(Apply(s, acts[0]), acts[1..]);
    }
  }

  /** In every run each idle period is won by at most one compare-and-swap, whosever it is, and
      only after idle was asked for that often. */
  lemma OneWinnerPerPeriod(acts: seq<Action>)
    requires IsRun(acts)
    ensures var ws := WinsAlong(INIT, acts);
      && (forall i, j | 0 <= i < j < |ws| :: ws[i] < ws[j])
      && (forall i | 0 <= i < |ws| :: ws[i] <= EntersAlong(INIT, acts))
  {
    InvReached(acts);
    RecordedAlong(INIT, acts);
    assert End(acts).winners == WinsAlong(INIT, acts);
  }

  // ---- failures

  /** A call on the connection fails. */
  predicate Fails(s: State, a: Action) {
    a == Worker(true) && (s.pc.Enter? || s.pc.Read?)
  }

  /** The connection has been made anew and the interrupt stream replaced. */
  predicate Restores(s: State, a: Action) {
    a == Worker(false) && s.pc.CloneStream?
  }

  function FailedAlong(s: State, acts: seq<Action>, before: bool): bool
    requires Legal(s, acts)
    decreases |acts|
  {
    if acts == [] then before
    else FailedAlong(Apply(s, acts[0]), acts[1..], !Restores(s, acts[0]) && (before || Fails(s, acts[0])))
  }

  predicate Tells(s: State, failed: bool) {
    s.pc.Exited? || (Recovers(s.pc) <==> failed)
  }

  lemma StepTells(s: State, a: Action, failed: bool)
    requires Enabled(s, a) && Tells(s, failed)
    ensures Tells(Apply(s, a), !Restores(s, a) && (failed || Fails(s, a)))
  {
    match a
    case Worker(fail) =>
      if Serves(s.pc) { ServeTells(s, fail, failed); }
      else if Idles(s.pc) { IdleTells(s, fail, failed); }
      else { RecoverTells(s, fail, failed); }
    case _ =>
  }

  lemma ServeTells(s: State, fail: bool, failed: bool)
    requires WorkerEnabled(s, fail) && Serves(s.pc) && Tells(s, failed)
    ensures Tells(ServeStep(s, fail), failed)
  {
  }

  lemma IdleTells(s: State, fail: bool, failed: bool)
    requires WorkerEnabled(s, fail) && Idles(s.pc) && Tells(s, failed)
    ensures Tells(IdleStep(s, fail), failed || Fails(s, Worker(fail)))
  {
  }

  lemma RecoverTells(s: State, fail: bool, failed: bool)
    requires WorkerEnabled(s, fail) && !Serves(s.pc) && !Idles(s.pc) && Tells(s, failed)
    ensures Tells(RecoverStep(s, fail), failed && !Restores(s, Worker(fail)))
  {
  }

  lemma {:induction false} TellsAlong(s: State, acts: seq<Action>, failed: bool)
    requires Legal(s, acts) && Tells(s, failed)
    ensures Tells(After(s, acts), FailedAlong(s, acts, failed))
    decreases |acts|
  {
    if acts != [] {
      var now := !Restores(s, acts[0]) && (failed || Fails(s, acts[0]));
      StepTells(s, acts[0], failed);
      TellsAlong(Apply(s, acts[0]), acts[1..], now);
    }
  }

  /** In every run the worker, while it has not ended, is recovering if and only if entering idle
      or reading its reply has failed since the connection was last made good. */
  lemma RecoversExactly(acts: seq<Action>)
    requires IsRun(acts) && !End(acts).pc.Exited?
    ensures Recovers(End(acts).pc) <==> FailedAlong(INIT, acts, false)
  {
    TellsAlong(INIT, acts, false);
  }

  // ---- the interrupt stream

  /** Until the interrupt stream is replaced nothing has been written to the new connection. */
  predicate Untouched(s: State) {
    s.interrupt != s.connId ==> s.conn == FRESH_CONN
  }

  lemma StepUntouched(s: State, a: Action)
    requires Inv(s) && Enabled(s, a) && Untouched(s)
    ensures Untouched(Apply(s, a))
  {
    match a
    case Worker(fail) => if !Serves(s.pc) && !Idles(s.pc) { RecoverUntouched(s, fail); }
    case _ =>
  }

  lemma RecoverUntouched(s: State, fail: bool)
    requires Inv(s) && WorkerEnabled(s, fail) && !Serves(s.pc) && !Idles(s.pc) && Untouched(s)
    ensures Untouched(RecoverStep(s, fail))
  {
  }

  lemma {:induction false} UntouchedAlong(s: State, acts: seq<Action>)
    requires Inv(s) && Legal(s, acts) && Untouched(s)
    ensures Untouched(After(s, acts))
    decreases |acts|
  {
    if acts != [] {
      StepKeeps(s, acts[0]);
      StepUntouched(s, acts[0]);
      UntouchedAlong(Apply(s, acts[0]), acts[1..]);
    }
  }

  /** In every run no `noidle` of a caller who still holds the stream of an earlier connection
      reaches a new one. */
  lemma NothingStraysIn(acts: seq<Action>)
    requires IsRun(acts) && End(acts).interrupt != End(acts).connId
    ensures End(acts).conn == FRESH_CONN
  {
    UntouchedAlong(INIT, acts);
  }
}
