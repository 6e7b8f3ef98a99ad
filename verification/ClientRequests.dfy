/**
 rmpc's client requests: in every run each request that was sent has been called or skipped, has
 been thrown away where that is meant, or is still kept.
 */
module ClientRequests {
  import opened ClientTask

  /** What happened to requests along a run. */
  datatype Tally = Tally(arrived: nat, called: nat, skipped: nat, thrownAway: nat) {
    function Plus(t: Tally): Tally {
      Tally(arrived + t.arrived, called + t.called, skipped + t.skipped, thrownAway + t.thrownAway)
    }
  }

  const NONE := Tally(0, 0, 0, 0)

  /** The request loop turns to a request and handles it. */
  predicate Calls(s: State, a: Action) {
    a.StepReq? && !a.o.Slow? && s.req.RLoop? && s.buffer > 0
  }

  /** The request loop turns to a request and passes over it. */
  predicate Skips(s: State, a: Action) {
    a.StepReq? && a.o.Slow? && s.req.RLoop? && s.buffer > 0
  }

  /** Requests are thrown away only as main empties the queue behind a reconnect, and as the
      request thread leaves: the message in its hand, and at its end what it has buffered. */
  function ThrowsAway(s: State, a: Action): nat {
    if a == StepMain(Good) && s.main.MCheckConn? && !s.firstLoop then s.requests
    else if a.StepReq? && s.req.RCheckMsg? && !s.healthy then 1
    else if a.StepReq? && s.req.RShutdown? then s.buffer
    else 0
  }

  function Books(s: State, a: Action): Tally {
    Tally(if a.Arrive? then 1 else 0, if Calls(s, a) then 1 else 0, if Skips(s, a) then 1 else 0, ThrowsAway(s, a))
  }

  function BooksAlong(s: State, acts: seq<Action>): Tally
    requires Legal(s, acts)
    decreases |acts|
  {
    if acts == [] then NONE else Books(s, acts[0]).Plus(BooksAlong(Apply(s, acts[0]), acts[1..]))
  }

  /** In the channel, in the request thread's hand, or in its buffer. */
  function Kept(s: State): nat {
    s.requests + (if s.req.RCheckMsg? then 1 else 0) + s.buffer
  }

  /** Where the request thread has nothing buffered. */
  predicate EmptyAt(r: ReqPc) {
    match r
    case RCheckConfirm(work) => !work
    case RConfirm(work) => !work
    case _ => r.RNone? || r.RDone? || r.RSelect? || r.RCheckMsg? || r.RGot? || r.RAwait?
  }

  predicate BufferInv(s: State) {
    && (EmptyAt(s.req) ==> s.buffer == 0)
    && (s.healthy && (s.req.RDrop? || s.req.RCheckAwait?) ==> s.buffer == 0)
  }

  /** What a step does to the requests. */
  predicate Balanced(s: State, t: State, b: Tally) {
    && BufferInv(t)
    && Kept(t) + b.called + b.skipped + b.thrownAway == Kept(s) + b.arrived
  }

  lemma StepBalances(s: State, a: Action)
    requires Inv(s) && BufferInv(s) && Enabled(s, a)
    ensures Balanced(s, Apply(s, a), Books(s, a))
  {
    match a
    case StepReq(o) => ReqBalances(s, o);
    case StepMain(o) => MainBalances(s, o);
    case StepIdle(o) => IdleBalances(s, o);
    case _ => WorldBalances(s, a);
  }

  lemma ReqBalances(s: State, o: Outcome)
    requires BufferInv(s) && ReqEnabled(s, o)
    ensures Balanced(s, ReqStep(s, o), Books(s, StepReq(o)))
  {
    if RSelects(s.req) || RGets(s.req) { AcquireBalances(s, o); }
    else if RServes(s.req) { ServeBalances(s, o); }
    else if RRepairs(s.req) { RepairBalances(s, o); }
    else { ReleaseBalances(s, o); }
  }

  lemma AcquireBalances(s: State, o: Outcome)
    requires BufferInv(s) && ReqEnabled(s, o) && (RSelects(s.req) || RGets(s.req))
    ensures Balanced(s, ReqAcquire(s, o), Books(s, StepReq(o)))
  {
  }

  lemma ServeBalances(s: State, o: Outcome)
    requires BufferInv(s) && ReqEnabled(s, o) && RServes(s.req)
    ensures Balanced(s, ReqServe(s, o), Books(s, StepReq(o)))
  {
  }

  lemma RepairBalances(s: State, o: Outcome)
    requires BufferInv(s) && ReqEnabled(s, o) && RRepairs(s.req)
    ensures Balanced(s, ReqRepair(s, o), Books(s, StepReq(o)))
  {
  }

  lemma ReleaseBalances(s: State, o: Outcome)
    requires BufferInv(s) && ReqEnabled(s, o)
    requires !RSelects(s.req) && !RGets(s.req) && !RServes(s.req) && !RRepairs(s.req)
    ensures Balanced(s, ReqRelease(s, o), Books(s, StepReq(o)))
  {
  }

  lemma MainBalances(s: State, o: Outcome)
    requires Inv(s) && BufferInv(s) && MainEnabled(s, o)
    ensures Balanced(s, MainStep(s, o), Books(s, StepMain(o)))
  {
  }

  lemma IdleBalances(s: State, o: Outcome)
    requires BufferInv(s) && IdleEnabled(s, o)
    ensures Balanced(s, IdleStep(s, o), Books(s, StepIdle(o)))
  {
    if IWaits(s.idle) || IPrepares(s.idle) { IdleAcquireBalances(s, o); } else { IdleReleaseBalances(s, o); }
  }

  lemma IdleAcquireBalances(s: State, o: Outcome)
    requires BufferInv(s) && IdleEnabled(s, o) && (IWaits(s.idle) || IPrepares(s.idle))
    ensures Balanced(s, IdleAcquire(s, o), Books(s, StepIdle(o)))
  {
  }

  lemma IdleReleaseBalances(s: State, o: Outcome)
    requires BufferInv(s) && IdleEnabled(s, o) && !IWaits(s.idle) && !IPrepares(s.idle)
    ensures Balanced(s, IdleRelease(s, o), Books(s, StepIdle(o)))
  {
  }

  lemma WorldBalances(s: State, a: Action)
    requires BufferInv(s) && Enabled(s, a) && !a.StepReq? && !a.StepMain? && !a.StepIdle?
    ensures Balanced(s, Apply(s, a), Books(s, a))
  {
  }

  /** A request turned to is in its callback next, and one passed over leaves the loop where it
      is; passing over is possible exactly while another request is known. */
  lemma TurnsExactly(s: State, o: Outcome)
    requires s.req.RLoop?
    ensures ReqEnabled(s, Good) && ReqEnabled(s, Bad) && (ReqEnabled(s, Slow) <==> s.buffer > 0 && Kept(s) > 1)
    ensures ReqEnabled(s, o) ==> (Calls(s, StepReq(o)) <==> ReqServe(s, o).req.RCall?)
    ensures ReqEnabled(s, o) ==> (Skips(s, StepReq(o)) <==> ReqServe(s, o).req.RLoop?)
    ensures ReqEnabled(s, o) && Skips(s, StepReq(o)) ==> ReqServe(s, o).buffer > 0
    ensures ReqEnabled(s, o) ==> (ReqServe(s, o).req.RDrop? <==> s.buffer == 0)
  {
  }

  lemma {:induction false} RunBalances(s: State, acts: seq<Action>)
    requires Inv(s) && BufferInv(s) && Legal(s, acts)
    ensures Balanced(s, After(s, acts), BooksAlong(s, acts))
    decreases |acts|
  {
    if acts != [] {
      StepKeeps(s, acts[0]);
      StepBalances(s, acts[0]);
      RunBalances(Apply(s, acts[0]), acts[1..]);
    }
  }

  /** In every run: the requests sent are those called, those skipped, those thrown away as the
      queue is emptied behind a reconnect or as the request thread leaves, and those still kept. */
  lemma RequestsConserved(acts: seq<Action>)
    requires IsRun(acts)
    ensures var b := BooksAlong(INIT, acts);
      b.arrived == b.called + b.skipped + b.thrownAway + Kept(End(acts))
  {
    RunBalances(INIT, acts);
  }
}
