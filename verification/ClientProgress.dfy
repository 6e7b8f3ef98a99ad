/**
 rmpc's threads while all is well: they never wait for each other in vain, and every request that
 has been sent is called or skipped.
 */
module ClientProgress {
  import opened Wire
  import opened ClientTask
  import opened ClientRequests

  /** Both workers are in their loops and no failure has been noticed. */
  predicate Working(s: State) {
    MJoins(s.main) && s.healthy && !IGone(s.idle) && !RGone(s.req)
  }

  /** The idle thread can act without waiting for MPD, for the other thread or for a timeout. */
  predicate IdleCanGo(s: State) {
    !s.idle.IConfirm? && !s.idle.IAwait? && IdleCanMove(s)
  }

  predicate ReqCanGo(s: State) {
    !s.req.RConfirm? && !s.req.RAwait? && ReqCanMove(s)
  }

  predicate CanConfirm(s: State) {
    exists x, y :: Enabled(s, Confirm(x, y))
  }

  /** For an event or a request; for the idle reply that the `noidle` written brings; or for the
      reply to a callback's command. */
  predicate WaitsForOthers(s: State) {
    || (s.idle.IRead? && s.req.RSelect? && s.requests == 0)
    || (s.idle.IRead? && s.req.RRecv? && Woken(s.link.conn))
    || (s.req.RCallAwait? && Woken(s.link.conn))
  }

  lemma WorkersWait(s: State)
    requires Inv(s) && Working(s) && !IdleCanGo(s) && !ReqCanGo(s)
    requires !Enabled(s, Confirm(IdleThread, RequestThread)) && !Enabled(s, Confirm(RequestThread, IdleThread))
    ensures WaitsForOthers(s)
  {
    if s.req.RCallAwait? { CommandAnswered(s.link.conn); }
  }

  /** The threads never wait for each other in vain: in every run, while neither has failed, when
      no confirmation can pass and neither can act they wait for MPD or the user, never for the
      three seconds of a confirmation. */
  lemma OnlyWaitsForServer(acts: seq<Action>)
    requires IsRun(acts) && Working(End(acts))
    requires !CanConfirm(End(acts)) && !IdleCanGo(End(acts)) && !ReqCanGo(End(acts))
    ensures WaitsForOthers(End(acts))
  {
    InvReached(acts);
    assert !Enabled(End(acts), Confirm(IdleThread, RequestThread));
    assert !Enabled(End(acts), Confirm(RequestThread, IdleThread));
    WorkersWait(End(acts));
  }

  // ---- every request is reached

  /** The request thread has taken a request and is on its way to handle it. */
  predicate OnTheWay(r: ReqPc) {
    || r.RCheckNoIdle? || r.RNoIdle? || r.RCheckRecv? || r.RRecv?
    || (r.RCheckConfirm? && r.work) || (r.RConfirm? && r.work)
  }

  /** The connection lives and nothing has failed. */
  predicate Going(s: State) {
    Inv(s) && BufferInv(s) && Working(s) && !s.link.dead
  }

  /** How the request thread goes on while all is well: a callback ends, and `skip` tells which
      requests are passed over; everything else succeeds. */
  function Smoothly(s: State, skip: State -> bool): Outcome {
    if s.req.RCall? then Bad else if s.req.RLoop? && ReqEnabled(s, Slow) && skip(s) then Slow else Good
  }

  /** Only calls that succeed, callbacks that end, confirmations, and MPD reading what is written:
      no request, event, failure or timeout. */
  predicate Smooth(s: State, a: Action, skip: State -> bool) {
    a == StepIdle(Good) || a == StepReq(Smoothly(s, skip)) || a.Confirm? || a.ServerLine?
  }

  predicate SmoothAlong(s: State, acts: seq<Action>, skip: State -> bool)
    requires Legal(s, acts)
    decreases |acts|
  {
    acts != [] ==> Smooth(s, acts[0], skip) && SmoothAlong(Apply(s, acts[0]), acts[1..], skip)
  }

  function IdleAhead(i: IdlePc): nat {
    match i
    case ICheckRecv => 12
    case IRecv => 11
    case ICheckTimeout => 10
    case ITimeout => 9
    case ICheckEnter => 8
    case IEnter => 7
    case ICheckConfirm => 6
    case IConfirm => 5
    case IRead => 4
    case IEvents => 3
    case IDrop => 2
    case ICheckAwait => 1
    case _ => 0
  }

  /** Steps until the next request is turned to, if there is one in the buffer. */
  function ReqAhead(r: ReqPc): nat {
    match r
    case RLoop => 1
    case RTimeout => 2
    case RReport => 2
    case RClone => 2
    case RCheckTimeout => 3
    case RCheckReport => 3
    case RCheckClone => 3
    case RCall => 4
    case RConfirm(work) => if work then 4 else 15
    case RWriteTimeout => 4
    case RCallAwait => 5
    case RCheckConfirm(work) => if work then 5 else 16
    case RCheckWriteTimeout => 5
    case RRecv => 6
    case RReconnect => 6
    case RCheckRecv => 7
    case RCheckReconnect => 7
    case RNoIdle => 8
    case RCheckNoIdle => 9
    case RCheckMsg => 10
    case RSelect => 11
    case RAwait => 12
    case RCheckAwait => 13
    case RDrop => 14
    case _ => 17
  }

  /** With an empty buffer the way leads once around, through the idle thread. */
  function Ahead(s: State): nat {
    if s.buffer == 0 && (OnTheWay(s.req) || RServes(s.req) || RRepairs(s.req)) then 14 + ReqAhead(s.req)
    else ReqAhead(s.req)
  }

  /** Something smooth can happen. */
  lemma NextSmooth(s: State, skip: State -> bool) returns (a: Action)
    requires Going(s) && Kept(s) > 0
    ensures Enabled(s, a) && Smooth(s, a, skip)
  {
    if ReqEnabled(s, Smoothly(s, skip)) {
      a := StepReq(Smoothly(s, skip));
    } else if IdleEnabled(s, Good) {
      a := StepIdle(Good);
    } else if Enabled(s, Confirm(IdleThread, RequestThread)) {
      a := Confirm(IdleThread, RequestThread);
    } else if Enabled(s, Confirm(RequestThread, IdleThread)) {
      a := Confirm(RequestThread, IdleThread);
    } else {
      GoodIsGo(s, skip);
      WorkersWait(s);
      WokenHasLines(s.link.conn);
      a := ServerLine;
    }
  }

  lemma GoodIsGo(s: State, skip: State -> bool)
    requires Going(s) && Kept(s) > 0 && !ReqEnabled(s, Smoothly(s, skip)) && !IdleEnabled(s, Good)
    ensures !IdleCanGo(s) && !ReqCanGo(s)
  {
  }

  lemma WokenHasLines(c: Conn)
    requires Woken(c) && c.outbound == []
    ensures c.inbound != []
  {
  }

  /** Nearer to the next request, or past it. */
  predicate Nearer(t: State, s: State) {
    || Kept(t) < Kept(s)
    || (Kept(t) == Kept(s) &&
         (|| Ahead(t) < Ahead(s)
          || (Ahead(t) == Ahead(s) && IdleAhead(t.idle) < IdleAhead(s.idle))
          || (Ahead(t) == Ahead(s) && t.idle == s.idle && |t.link.conn.inbound| < |s.link.conn.inbound|)))
  }

  /** All is still well, and the threads have come on. */
  predicate ComesOn(s: State, t: State) {
    Working(t) && !t.link.dead && Nearer(t, s)
  }

  lemma ReqGoes(s: State, o: Outcome)
    requires Going(s) && Kept(s) > 0 && ReqEnabled(s, o)
    requires if s.req.RCall? then o.Bad? else o.Good? || (o.Slow? && s.req.RLoop?)
    ensures ComesOn(s, ReqStep(s, o))
  {
    if RSelects(s.req) || RGets(s.req) { AcquireGoes(s); }
    else if RServes(s.req) { ServeGoes(s, o); }
    else if RRepairs(s.req) { RepairGoes(s); }
    else { ReleaseGoes(s); }
  }

  lemma AcquireGoes(s: State)
    requires Going(s) && ReqEnabled(s, Good) && (RSelects(s.req) || RGets(s.req))
    ensures ComesOn(s, ReqAcquire(s, Good))
  {
    if s.req.RSelect? || s.req.RCheckMsg? { TakeGoes(s); } else { FetchGoes(s); }
  }

  lemma TakeGoes(s: State)
    requires Going(s) && ReqEnabled(s, Good) && (s.req.RSelect? || s.req.RCheckMsg?)
    ensures ComesOn(s, ReqAcquire(s, Good))
  {
  }

  lemma FetchGoes(s: State)
    requires Going(s) && ReqEnabled(s, Good) && (RSelects(s.req) || RGets(s.req)) && !s.req.RSelect? && !s.req.RCheckMsg?
    ensures ComesOn(s, ReqAcquire(s, Good))
  {
    if RGets(s.req) { OfferGoes(s); }
  }

  lemma OfferGoes(s: State)
    requires Going(s) && ReqEnabled(s, Good) && RGets(s.req)
    ensures ComesOn(s, ReqAcquire(s, Good))
  {
  }

  lemma ServeGoes(s: State, o: Outcome)
    requires Going(s) && Kept(s) > 0 && ReqEnabled(s, o) && RServes(s.req)
    requires if s.req.RCall? then o.Bad? else o.Good? || (o.Slow? && s.req.RLoop?)
    ensures ComesOn(s, ReqServe(s, o))
  {
    if s.req.RLoop? { LoopGoes(s, o); }
    else if s.req.RCall? || s.req.RCallAwait? { CallbackGoes(s, o); }
  }

  lemma LoopGoes(s: State, o: Outcome)
    requires Going(s) && Kept(s) > 0 && ReqEnabled(s, o) && s.req.RLoop?
    ensures ComesOn(s, ReqServe(s, o))
  {
  }

  lemma CallbackGoes(s: State, o: Outcome)
    requires Going(s) && ReqEnabled(s, o)
    requires (s.req.RCall? && o.Bad?) || (s.req.RCallAwait? && o.Good?)
    ensures ComesOn(s, ReqServe(s, o))
  {
  }

  lemma RepairGoes(s: State)
    requires Going(s) && ReqEnabled(s, Good) && RRepairs(s.req)
    ensures ComesOn(s, ReqRepair(s, Good))
  {
    if s.req.RReconnect? || s.req.RCheckReconnect? { ReconnectGoes(s); } else { CloneGoes(s); }
  }

  lemma ReconnectGoes(s: State)
    requires Going(s) && (s.req.RReconnect? || s.req.RCheckReconnect?)
    ensures ComesOn(s, ReqRepair(s, Good))
  {
  }

  lemma CloneGoes(s: State)
    requires Going(s) && RRepairs(s.req) && !s.req.RReconnect? && !s.req.RCheckReconnect?
    ensures ComesOn(s, ReqRepair(s, Good))
  {
    if s.req.RCheckClone? || s.req.RClone? { WriterGoes(s); } else { TimeoutGoes(s); }
  }

  lemma WriterGoes(s: State)
    requires Going(s) && (s.req.RCheckClone? || s.req.RClone?)
    ensures ComesOn(s, ReqRepair(s, Good))
  {
  }

  lemma TimeoutGoes(s: State)
    requires Going(s) && (s.req.RCheckWriteTimeout? || s.req.RWriteTimeout?)
    ensures ComesOn(s, ReqRepair(s, Good))
  {
  }

  lemma ReleaseGoes(s: State)
    requires Going(s) && ReqEnabled(s, Good)
    requires !RSelects(s.req) && !RGets(s.req) && !RServes(s.req) && !RRepairs(s.req)
    ensures ComesOn(s, ReqRelease(s, Good))
  {
  }

  lemma IdleGoes(s: State)
    requires Going(s) && IdleEnabled(s, Good)
    ensures ComesOn(s, IdleStep(s, Good))
  {
    if IWaits(s.idle) || IPrepares(s.idle) { IdleAcquireGoes(s); } else { IdleReleaseGoes(s); }
  }

  lemma IdleAcquireGoes(s: State)
    requires Going(s) && IdleEnabled(s, Good) && (IWaits(s.idle) || IPrepares(s.idle))
    ensures ComesOn(s, IdleAcquire(s, Good))
  {
  }

  lemma IdleReleaseGoes(s: State)
    requires Going(s) && IdleEnabled(s, Good) && !IWaits(s.idle) && !IPrepares(s.idle)
    ensures ComesOn(s, IdleRelease(s, Good))
  {
  }

  lemma ConfirmGoes(s: State, x: Thread, y: Thread)
    requires Going(s) && Enabled(s, Confirm(x, y))
    ensures ComesOn(s, Rendezvous(s, x, y))
  {
  }

  lemma SmoothGoes(s: State, a: Action, skip: State -> bool)
    requires Going(s) && Kept(s) > 0 && Enabled(s, a) && Smooth(s, a, skip)
    ensures ComesOn(s, Apply(s, a))
  {
    match a
    case StepReq(o) => ReqGoes(s, o);
    case StepIdle(_) => IdleGoes(s);
    case Confirm(x, y) => ConfirmGoes(s, x, y);
    case ServerLine =>
  }

  /** No smooth step takes a request in or throws one away. */
  lemma SmoothBooks(s: State, a: Action, skip: State -> bool)
    requires Enabled(s, a) && Smooth(s, a, skip) && s.healthy && !RGone(s.req)
    ensures Books(s, a).arrived == 0 && Books(s, a).thrownAway == 0
  {
  }

  /** Every request that has been sent is reached: in every run, while nothing has failed and the
      connection lives, successful calls, confirmations and MPD's reading of what is written bring
      each request kept to a call or a skip, whichever of them are skipped; no event, failure or
      timeout is needed. */
  lemma RequestsReached(acts: seq<Action>, skip: State -> bool) returns (more: seq<Action>)
    requires IsRun(acts) && Working(End(acts)) && !End(acts).link.dead
    ensures Legal(End(acts), more) && SmoothAlong(End(acts), more, skip)
    ensures Kept(After(End(acts), more)) == 0 && After(End(acts), more).healthy
    ensures var b := BooksAlong(End(acts), more); b == Tally(0, b.called, b.skipped, 0)
    ensures var b := BooksAlong(End(acts), more); b.called + b.skipped == Kept(End(acts))
  {
    GoingReached(acts);
    var s := End(acts);
    more := ReachAll(s, skip);
  }

  lemma GoingReached(acts: seq<Action>)
    requires IsRun(acts) && Working(End(acts)) && !End(acts).link.dead
    ensures Going(End(acts))
  {
    InvReached(acts);
    RunBalances(INIT, acts);
  }

  lemma {:induction false} ReachAll(s: State, skip: State -> bool) returns (more: seq<Action>)
    requires Going(s)
    ensures Legal(s, more) && SmoothAlong(s, more, skip)
    ensures Kept(After(s, more)) == 0 && After(s, more).healthy
    ensures BooksAlong(s, more).arrived == 0 && BooksAlong(s, more).thrownAway == 0
    ensures BooksAlong(s, more).called + BooksAlong(s, more).skipped == Kept(s)
    decreases Kept(s), Ahead(s), IdleAhead(s.idle), |s.link.conn.inbound|
  {
    if Kept(s) == 0 {
      more := [];
    } else {
      var a := NextSmooth(s, skip);
      StepKeeps(s, a);
      StepBalances(s, a);
      SmoothGoes(s, a, skip);
      SmoothBooks(s, a, skip);
      var rest := ReachAll(Apply(s, a), skip);
      more := [a] + rest;
      assert more[1..] == rest;
    }
  }
}
