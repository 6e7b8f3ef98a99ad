/**
 How rmpc comes back: main tries again for as long as it cannot reconnect, and once it can both
 threads are running again on the new connection.
 */
module ClientRestart {
  import opened Wire
  import opened ClientTask

  /** Reconnecting, or setting the timeouts, fails: main's own steps bring it back to the attempt,
      with the client in its hand and HEALTHY set. */
  lemma MainRetries(s: State, o: Outcome) returns (more: seq<Action>)
    requires Inv(s) && !o.Good? && ((s.main.MCheckConn? && !s.firstLoop) || s.main.MTimeouts?)
    ensures |more| > 0 && more[0] == StepMain(o) && forall i | 0 < i < |more| :: more[i] == StepMain(Good)
    ensures Legal(s, more)
    ensures var t := After(s, more); t.main.MCheckConn? && t.tok.mainHas.Some? && t.healthy && !t.firstLoop
  {
    var t := Apply(s, StepMain(o));
    StepKeeps(s, StepMain(o));
    StepKeeps(t, StepMain(Good));
    var u := Apply(t, StepMain(Good));
    var rest := MainTakes(u);
    var later := [StepMain(Good)] + rest;
    assert later[1..] == rest;
    more := [StepMain(o)] + later;
    assert more[1..] == later;
    RunKeeps(s, more);
    FirstLoopStays(s, more);
  }

  lemma {:induction false} FirstLoopStays(s: State, acts: seq<Action>)
    requires Inv(s) && !s.firstLoop && Legal(s, acts)
    ensures !After(s, acts).firstLoop
    decreases |acts|
  {
    if acts != [] {
      StepKeeps(s, acts[0]);
      NotFirstAgain(s, acts[0]);
      FirstLoopStays(Apply(s, acts[0]), acts[1..]);
    }
  }

  lemma NotFirstAgain(s: State, a: Action)
    requires Enabled(s, a) && !s.firstLoop
    ensures !Apply(s, a).firstLoop
  {
    match a
    case StepReq(o) => ReqNotFirst(s, o);
    case _ =>
  }

  lemma ReqNotFirst(s: State, o: Outcome)
    requires ReqEnabled(s, o) && !s.firstLoop
    ensures !ReqStep(s, o).firstLoop
  {
  }

  // ---- a new generation

  /** On the way from a reconnect to two running threads. */
  predicate Starting(s: State) {
    && Inv(s) && s.healthy && !s.firstLoop
    && (s.main.MCheckConn? || (!s.link.dead && !s.link.dirty && s.requests == 0))
    && match s.main
       case MCheckConn => true
       case MTimeouts => true
       case MSpawnIdle => true
       case MGive => true
       case MAwait => !IGone(s.idle)
       case MSpawnReq => s.idle.IRead?
       case _ => false
  }

  function Until(s: State): nat {
    match s.main
    case MCheckConn => 13
    case MTimeouts => 12
    case MSpawnIdle => 11
    case MGive => 10
    case MAwait => 1 + HandoverDistance(s.idle)
    case _ => 1
  }

  function StartStep(s: State): Action {
    if !s.main.MAwait? then StepMain(Good)
    else if s.idle.IConfirm? then Confirm(IdleThread, MainThread)
    else StepIdle(Good)
  }

  /** Both threads run, on a connection that lives, with an empty queue and an empty buffer. */
  predicate Running(s: State) {
    && s.main.MJoinIdle? && s.idle.IRead? && s.req.RSelect? && s.healthy
    && !s.link.dead && !s.link.dirty && s.link.clientWrite == s.link.connId && s.requests == 0 && s.buffer == 0
  }

  lemma StartStepGoes(s: State)
    requires Starting(s)
    ensures Enabled(s, StartStep(s))
    ensures var t := Apply(s, StartStep(s));
      && (Running(t) || (Starting(t) && Until(t) < Until(s)))
      && t.link.connId == s.link.connId + (if s.main.MCheckConn? then 1 else 0)
  {
    StepKeeps(s, StartStep(s));
    if s.main.MAwait? && !s.idle.IConfirm? { IdleStarts(s); }
  }

  lemma IdleStarts(s: State)
    requires Starting(s) && s.main.MAwait? && !s.idle.IConfirm?
    ensures IdleEnabled(s, Good)
    ensures var t := IdleStep(s, Good);
      && !IGone(t.idle) && HandoverDistance(t.idle) < HandoverDistance(s.idle)
      && t == s.(idle := t.idle, tok := t.tok, link := t.link)
      && t.link.connId == s.link.connId && t.link.dead == s.link.dead && t.link.dirty == s.link.dirty
  {
  }

  lemma {:induction false} Starts(s: State) returns (more: seq<Action>)
    requires Starting(s)
    ensures Legal(s, more) && Running(After(s, more))
    ensures After(s, more).link.connId == s.link.connId + (if s.main.MCheckConn? then 1 else 0)
    decreases Until(s)
  {
    var a := StartStep(s);
    StartStepGoes(s);
    var t := Apply(s, a);
    if Running(t) {
      more := [a];
      assert more[1..] == [];
    } else {
      var rest := Starts(t);
      more := [a] + rest;
      assert more[1..] == rest;
    }
  }

  /** Service resumes: from every unhealthy state after the first hand-over there is a continuation
      that ends with both threads running on a newer connection, nothing queued. */
  lemma ServiceResumes(acts: seq<Action>) returns (more: seq<Action>)
    requires IsRun(acts) && MJoins(End(acts).main) && !End(acts).healthy
    ensures Legal(End(acts), more) && Running(After(End(acts), more))
    ensures After(End(acts), more).link.connId > End(acts).link.connId
  {
    var s := End(acts);
    InvReached(acts);
    var first := RecoveryCompletes(acts);
    RunKeeps(s, first);
    var t := After(s, first);
    FirstLoopStays(s, first);
    ConnIdGrows(s, first);
    var rest := Starts(t);
    Joined(s, first, rest);
    more := first + rest;
  }

  lemma {:induction false} ConnIdGrows(s: State, acts: seq<Action>)
    requires Legal(s, acts)
    ensures After(s, acts).link.connId >= s.link.connId
    decreases |acts|
  {
    if acts != [] {
      ConnIdStep(s, acts[0]);
      ConnIdGrows(Apply(s, acts[0]), acts[1..]);
    }
  }

  lemma ConnIdStep(s: State, a: Action)
    requires Enabled(s, a)
    ensures Apply(s, a).link.connId >= s.link.connId
  {
    match a
    case StepReq(o) => ReqConnIdStep(s, o);
    case _ =>
  }

  lemma ReqConnIdStep(s: State, o: Outcome)
    requires ReqEnabled(s, o)
    ensures ReqStep(s, o).link.connId >= s.link.connId
  {
    if RRepairs(s.req) { RepairConnIdStep(s, o); }
  }

  lemma RepairConnIdStep(s: State, o: Outcome)
    requires ReqEnabled(s, o) && RRepairs(s.req)
    ensures ReqRepair(s, o).link.connId >= s.link.connId
  {
  }

  lemma {:induction false} Joined(s: State, a: seq<Action>, b: seq<Action>)
    requires Legal(s, a) && Legal(After(s, a), b)
    ensures Legal(s, a + b) && After(s, a + b) == After(After(s, a), b)
    decreases |a|
  {
    if a == [] {
      assert a + b == b;
    } else {
      Joined(Apply(s, a[0]), a[1..], b);
      assert (a + b)[1..] == a[1..] + b;
    }
  }
}
