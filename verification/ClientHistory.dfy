/**
 What a run of rmpc's threads leaves in its history: whether a failure has been noticed since main
 last started over, and how many `noidle` lines were written in the present idle period.
 */
module ClientHistory {
  import opened Wire
  import opened ClientTask

  // ---- HEALTHY

  /** A call of the idle thread under `health!` fails, or its read breaks. */
  predicate IdleFailsAt(s: State, o: Outcome) {
    match s.idle
    case ITimeout => !o.Good?
    case IEnter => !o.Good?
    case IConfirm => true
    case IRead => o.Bad?
    case IAwait => true
    case _ => false
  }

  /** A call of the request thread under `health!` fails, or it leaves its loop. */
  predicate ReqFailsAt(s: State, o: Outcome) {
    match s.req
    case RNoIdle => !o.Good?
    case RConfirm(_) => true
    case RTimeout => !o.Good?
    case RReport => !o.Good?
    case RReconnect => !o.Good?
    case RWriteTimeout => !o.Good?
    case RClone => !o.Good?
    case RAwait => true
    case RUnhealthy => true
    case _ => false
  }

  /** Whether a failure is known behind a step. */
  predicate Noticed(s: State, a: Action, before: bool) {
    match a
    case StepMain(_) => before && !s.main.MStart?
    case StepIdle(o) => before || IdleFailsAt(s, o)
    case StepReq(o) => before || ReqFailsAt(s, o)
    case _ => before
  }

  function NoticedAlong(s: State, acts: seq<Action>, before: bool): bool
    requires Legal(s, acts)
    decreases |acts|
  {
    if acts == [] then before else NoticedAlong(Apply(s, acts[0]), acts[1..], Noticed(s, acts[0], before))
  }

  lemma StepNotices(s: State, a: Action)
    requires Enabled(s, a)
    ensures !Apply(s, a).healthy <==> Noticed(s, a, !s.healthy)
  {
    match a
    case StepMain(o) => MainNotices(s, o);
    case StepIdle(o) => IdleNotices(s, o);
    case StepReq(o) => ReqNotices(s, o);
    case _ =>
  }

  lemma MainNotices(s: State, o: Outcome)
    requires MainEnabled(s, o)
    ensures !MainStep(s, o).healthy <==> !s.healthy && !s.main.MStart?
  {
  }

  lemma IdleNotices(s: State, o: Outcome)
    requires IdleEnabled(s, o)
    ensures !IdleStep(s, o).healthy <==> !s.healthy || IdleFailsAt(s, o)
  {
  }

  lemma ReqNotices(s: State, o: Outcome)
    requires ReqEnabled(s, o)
    ensures !ReqStep(s, o).healthy <==> !s.healthy || ReqFailsAt(s, o)
  {
    if RSelects(s.req) || RGets(s.req) { AcquireNotices(s, o); }
    else if RServes(s.req) { ServeNotices(s, o); }
    else if RRepairs(s.req) { RepairNotices(s, o); }
    else { ReleaseNotices(s, o); }
  }

  lemma AcquireNotices(s: State, o: Outcome)
    requires ReqEnabled(s, o) && (RSelects(s.req) || RGets(s.req))
    ensures !ReqAcquire(s, o).healthy <==> !s.healthy || ReqFailsAt(s, o)
  {
  }

  lemma ServeNotices(s: State, o: Outcome)
    requires ReqEnabled(s, o) && RServes(s.req)
    ensures !ReqServe(s, o).healthy <==> !s.healthy || ReqFailsAt(s, o)
  {
  }

  lemma RepairNotices(s: State, o: Outcome)
    requires ReqEnabled(s, o) && RRepairs(s.req)
    ensures !ReqRepair(s, o).healthy <==> !s.healthy || ReqFailsAt(s, o)
  {
  }

  lemma ReleaseNotices(s: State, o: Outcome)
    requires ReqEnabled(s, o)
    requires !RSelects(s.req) && !RGets(s.req) && !RServes(s.req) && !RRepairs(s.req)
    ensures !ReqRelease(s, o).healthy <==> !s.healthy || ReqFailsAt(s, o)
  {
  }

  lemma {:induction false} NoticesAlong(s: State, acts: seq<Action>)
    requires Legal(s, acts)
    ensures !After(s, acts).healthy <==> NoticedAlong(s, acts, !s.healthy)
    decreases |acts|
  {
    if acts != [] {
      StepNotices(s, acts[0]);
      NoticesAlong(Apply(s, acts[0]), acts[1..]);
    }
  }

  /** In every run HEALTHY is false if and only if a call under `health!` or the read of idle
      events has failed, or the request thread has left its loop, since main last started over. */
  lemma UnhealthyExactly(acts: seq<Action>)
    requires IsRun(acts)
    ensures !End(acts).healthy <==> NoticedAlong(INIT, acts, false)
  {
    NoticesAlong(INIT, acts);
  }

  // ---- what a false HEALTHY stops

  /** Inside a call under `health!`. */
  predicate IdleCalls(i: IdlePc) {
    i.IRecv? || i.ITimeout? || i.IEnter? || i.IConfirm? || i.IAwait?
  }

  predicate ReqCalls(r: ReqPc) {
    || r.RNoIdle? || r.RRecv? || r.RConfirm? || r.RTimeout? || r.RReport? || r.RReconnect?
    || r.RWriteTimeout? || r.RClone? || r.RAwait?
  }

  /** No thread begins such a call while HEALTHY is false. */
  predicate BeginsNone(s: State, t: State) {
    && (IdleCalls(t.idle) ==> t.idle == s.idle)
    && (ReqCalls(t.req) ==> t.req == s.req)
  }

  lemma NoCallWhenUnhealthy(s: State, a: Action)
    requires Enabled(s, a) && !s.healthy
    ensures BeginsNone(s, Apply(s, a))
  {
    match a
    case StepReq(o) => NoReqCall(s, o);
    case StepIdle(o) => NoIdleCall(s, o);
    case _ =>
  }

  lemma NoIdleCall(s: State, o: Outcome)
    requires IdleEnabled(s, o) && !s.healthy
    ensures BeginsNone(s, IdleStep(s, o))
  {
  }

  lemma NoReqCall(s: State, o: Outcome)
    requires ReqEnabled(s, o) && !s.healthy
    ensures BeginsNone(s, ReqStep(s, o))
  {
    if RSelects(s.req) || RGets(s.req) { NoAcquireCall(s, o); }
    else if RServes(s.req) { NoServeCall(s, o); }
    else if RRepairs(s.req) { NoRepairCall(s, o); }
    else { NoReleaseCall(s, o); }
  }

  lemma NoAcquireCall(s: State, o: Outcome)
    requires ReqEnabled(s, o) && !s.healthy && (RSelects(s.req) || RGets(s.req))
    ensures BeginsNone(s, ReqAcquire(s, o))
  {
  }

  lemma NoServeCall(s: State, o: Outcome)
    requires ReqEnabled(s, o) && !s.healthy && RServes(s.req)
    ensures BeginsNone(s, ReqServe(s, o))
  {
  }

  lemma NoRepairCall(s: State, o: Outcome)
    requires ReqEnabled(s, o) && !s.healthy && RRepairs(s.req)
    ensures BeginsNone(s, ReqRepair(s, o))
  {
  }

  lemma NoReleaseCall(s: State, o: Outcome)
    requires ReqEnabled(s, o) && !s.healthy
    requires !RSelects(s.req) && !RGets(s.req) && !RServes(s.req) && !RRepairs(s.req)
    ensures BeginsNone(s, ReqRelease(s, o))
  {
  }

  /** The idle thread leaves its loop exactly when a call fails, when it finds HEALTHY false before
      a call or as its read times out, or when nobody takes its events any more. */
  lemma IdleLeavesExactly(s: State, o: Outcome)
    requires IdleEnabled(s, o) && !IGone(s.idle)
    ensures IdleStep(s, o).idle.IExit? <==>
      || IdleFailsAt(s, o)
      || (!s.healthy && (s.idle.ICheckRecv? || s.idle.ICheckTimeout? || s.idle.ICheckEnter? || s.idle.ICheckConfirm?
                         || s.idle.ICheckAwait? || (s.idle.IRead? && o.Slow?)))
      || (s.idle.IEvents? && !o.Good?)
  {
  }

  // ---- noidle

  /** How many `noidle` lines were written since idle was last asked for. */
  function NoIdlesAlong(s: State, acts: seq<Action>, before: nat): nat
    requires Legal(s, acts)
    decreases |acts|
  {
    if acts == [] then before else NoIdlesAlong(Apply(s, acts[0]), acts[1..], NoIdles(s, acts[0], before))
  }

  function NoIdles(s: State, a: Action, before: nat): nat {
    if a == StepIdle(Good) && s.idle.IEnter? then 0
    else if a == StepReq(Good) && s.req.RNoIdle? then before + 1
    else before
  }

  function Counted(s: State): nat {
    if s.link.noidled then 1 else 0
  }

  lemma StepCounts(s: State, a: Action)
    requires Inv(s) && Enabled(s, a)
    ensures Counted(Apply(s, a)) == NoIdles(s, a, Counted(s))
  {
    match a
    case StepMain(o) => MainCounts(s, o);
    case StepIdle(o) => IdleCounts(s, o);
    case StepReq(o) => ReqCounts(s, o);
    case _ =>
  }

  lemma MainCounts(s: State, o: Outcome)
    requires MainEnabled(s, o)
    ensures Counted(MainStep(s, o)) == Counted(s)
  {
  }

  lemma IdleCounts(s: State, o: Outcome)
    requires IdleEnabled(s, o)
    ensures Counted(IdleStep(s, o)) == if o.Good? && s.idle.IEnter? then 0 else Counted(s)
  {
  }

  lemma ReqCounts(s: State, o: Outcome)
    requires ReqEnabled(s, o) && (s.req.RNoIdle? ==> !s.link.noidled)
    ensures Counted(ReqStep(s, o)) == if o.Good? && s.req.RNoIdle? then 1 else Counted(s)
  {
    if s.req.RNoIdle? {
    } else if RSelects(s.req) || RGets(s.req) { AcquireCounts(s, o); }
    else if RServes(s.req) { ServeCounts(s, o); }
    else if RRepairs(s.req) { RepairCounts(s, o); }
    else { ReleaseCounts(s, o); }
  }

  lemma AcquireCounts(s: State, o: Outcome)
    requires ReqEnabled(s, o) && (RSelects(s.req) || RGets(s.req)) && !s.req.RNoIdle?
    ensures ReqAcquire(s, o).link.noidled == s.link.noidled
  {
  }

  lemma ServeCounts(s: State, o: Outcome)
    requires ReqEnabled(s, o) && RServes(s.req)
    ensures ReqServe(s, o).link.noidled == s.link.noidled
  {
  }

  lemma RepairCounts(s: State, o: Outcome)
    requires ReqEnabled(s, o) && RRepairs(s.req)
    ensures ReqRepair(s, o).link.noidled == s.link.noidled
  {
  }

  lemma ReleaseCounts(s: State, o: Outcome)
    requires ReqEnabled(s, o)
    requires !RSelects(s.req) && !RGets(s.req) && !RServes(s.req) && !RRepairs(s.req)
    ensures ReqRelease(s, o).link.noidled == s.link.noidled
  {
  }

  lemma {:induction false} CountsAlong(s: State, acts: seq<Action>)
    requires Inv(s) && Legal(s, acts)
    ensures Counted(After(s, acts)) == NoIdlesAlong(s, acts, Counted(s))
    decreases |acts|
  {
    if acts != [] {
      StepKeeps(s, acts[0]);
      StepCounts(s, acts[0]);
      CountsAlong(Apply(s, acts[0]), acts[1..]);
    }
  }

  /** In every run at most one `noidle` is written between two requests for idle. */
  lemma OneNoIdlePerPeriod(acts: seq<Action>)
    requires IsRun(acts)
    ensures NoIdlesAlong(INIT, acts, 0) <= 1
  {
    CountsAlong(INIT, acts);
  }
}
