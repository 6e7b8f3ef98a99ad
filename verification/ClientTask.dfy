/**
 rmpc's client_task: an idle thread and a request thread pass one `Client` through
 a capacity-1 channel and confirm each hand-over on one rendezvous channel that both
 use in both directions; the main thread starts and restarts them.

 `health!` is two steps: the test of HEALTHY (the `Check` places), and the call,
 whose failure clears HEALTHY. A client is named by the connection it is on.
 */
module ClientTask {
  import opened Wrappers
  import opened Wire

  datatype Thread = MainThread | IdleThread | RequestThread

  datatype MainPc =
    | MStart
    | MRecv
    | MCheckConn
    | MTimeouts
    | MSpawnIdle
    | MGive
    | MAwait
    | MSpawnReq
    | MJoinIdle
    | MJoinReq
    | MReturn
    | MSleep

  datatype IdlePc =
    | INone
    | ICheckRecv | IRecv
    | ICheckTimeout | ITimeout
    | ICheckEnter | IEnter
    | ICheckConfirm | IConfirm
    | IRead
    | IEvents
    | IDrop
    | ICheckAwait | IAwait
    | IExit
    | IDone

  /** `work` tells the request arm of the `select!` from the arm that only passes the client on. */
  datatype ReqPc =
    | RNone
    | RSelect
    | RCheckMsg
    | RCheckNoIdle | RNoIdle
    | RCheckRecv | RRecv
    | RGot
    | RCheckConfirm(work: bool) | RConfirm(work: bool)
    | RCheckTimeout | RTimeout
    | RLoop
    | RCall | RCallAwait
    | RCheckReport | RReport
    | RCheckReconnect | RReconnect
    | RCheckWriteTimeout | RWriteTimeout
    | RCheckClone | RClone
    | RDrop
    | RCheckAwait | RAwait
    | RExit
    | RUnhealthy
    | RShutdown
    | RDone

  /** Who has the client; `ret` is the return channel. */
  datatype Token = Token(
    mainHas: Option<nat>,
    idleHas: Option<nat>,
    reqHas: Option<nat>,
    ret: seq<nat>,
    dropper: Thread)

  /** The socket of the newest connection. `dead`: broken or shut down. `dirty`: a reply may
      be out of step, after a timeout. `period` and `noidled` are history. */
  datatype Link = Link(
    conn: Conn,
    connId: nat,
    dead: bool,
    dirty: bool,
    clientWrite: nat,
    period: nat,
    noidled: bool)

  datatype State = State(
    main: MainPc,
    idle: IdlePc,
    req: ReqPc,
    tok: Token,
    link: Link,
    healthy: bool,
    firstLoop: bool,
    requests: nat,
    buffer: nat)

  const INIT := State(MStart, INone, RNone, Token(None, None, None, [0], MainThread),
                      Link(FRESH_CONN, 0, false, false, 0, 0, false), true, true, 0, 0)

  /** How a call turns out. `Slow` is a third outcome where there is one: the other arm of the
      `select!`, a skipped request, a timeout, a reconnect that fails after replacing the stream. */
  datatype Outcome = Good | Bad | Slow

  datatype Action =
    | StepMain(o: Outcome)
    | StepIdle(o: Outcome)
    | StepReq(o: Outcome)
    | Confirm(sender: Thread, receiver: Thread)
    | Arrive
    | ServerLine
    | ServerEvent
    | Break

  // ---- the channels

  predicate Sending(s: State, t: Thread) {
    match t
    case MainThread => false
    case IdleThread => s.idle.IConfirm?
    case RequestThread => s.req.RConfirm?
  }

  predicate Receiving(s: State, t: Thread) {
    match t
    case MainThread => s.main.MAwait?
    case IdleThread => s.idle.IAwait?
    case RequestThread => s.req.RAwait?
  }

  /** A sender and a receiver meet; nothing else decides who takes the confirmation. */
  function Rendezvous(s: State, sender: Thread, receiver: Thread): State
    requires sender != receiver && Sending(s, sender) && Receiving(s, receiver)
  {
    s.(main := if receiver.MainThread? then MSpawnReq else s.main,
       idle := if sender.IdleThread? then IRead else if receiver.IdleThread? then ICheckRecv else s.idle,
       req := if sender.RequestThread? then (if s.req.work then RCheckTimeout else RDrop)
              else if receiver.RequestThread? then RSelect else s.req)
  }

  predicate HasRoom(s: State) {
    |s.tok.ret| < 1
  }

  // ---- the idle thread

  predicate IdleEnabled(s: State, o: Outcome) {
    match s.idle
    case INone => false
    case IDone => false
    case IRecv => s.tok.ret != []
    case IConfirm => o.Bad?
    case IAwait => o.Bad?
    case IRead => o.Bad? || (o.Slow? && !s.healthy) || (o.Good? && !s.link.dead && s.link.conn.outbound != [])
    case IDrop => HasRoom(s)
    case IExit => s.tok.idleHas.None? || HasRoom(s)
    case _ => true
  }

  function IdleStep(s: State, o: Outcome): State
    requires IdleEnabled(s, o)
  {
    if IWaits(s.idle) || IPrepares(s.idle) then IdleAcquire(s, o) else IdleRelease(s, o)
  }

  /** A `health!` test in the idle thread. */
  function IdleTest(s: State, next: IdlePc): State {
    s.(idle := if s.healthy then next else IExit)
  }

  function IdleFails(s: State): State {
    s.(idle := IExit, healthy := false)
  }

  /** From the loop's top to the confirmation. */
  function IdleAcquire(s: State, o: Outcome): State
    requires IdleEnabled(s, o) && (IWaits(s.idle) || IPrepares(s.idle))
  {
    match s.idle
    case ICheckRecv => IdleTest(s, IRecv)
    case IRecv => s.(idle := ICheckTimeout, tok := s.tok.(idleHas := Some(s.tok.ret[0]), ret := s.tok.ret[1..]))
    case ICheckTimeout => IdleTest(s, ITimeout)
    case ITimeout => if o.Good? then s.(idle := ICheckEnter) else IdleFails(s)
    case ICheckEnter => IdleTest(s, IEnter)
    case IEnter =>
      if o.Good? then
        s.(idle := ICheckConfirm,
           link := s.link.(conn := Write(s.link.conn, Idle(s.link.period + 1)), period := s.link.period + 1,
                           noidled := false))
      else IdleFails(s)
    case ICheckConfirm => IdleTest(s, IConfirm)
    case IConfirm => IdleFails(s)
  }

  /** From the read to the next confirmation, and the way out. */
  function IdleRelease(s: State, o: Outcome): State
    requires IdleEnabled(s, o) && !IWaits(s.idle) && !IPrepares(s.idle)
  {
    match s.idle
    case IRead =>
      (match o
       case Good => s.(idle := IEvents, link := s.link.(conn := s.link.conn.(outbound := s.link.conn.outbound[1..])))
       case Bad => IdleFails(s)
       case Slow => s.(idle := IExit))
    case IEvents => s.(idle := if o.Good? then IDrop else IExit)
    case IDrop => IdleGives(s).(idle := ICheckAwait)
    case ICheckAwait => IdleTest(s, IAwait)
    case IAwait => IdleFails(s)
    case IExit => IdleGives(s).(idle := IDone)
  }

  /** The drop guard. */
  function IdleGives(s: State): State {
    if s.tok.idleHas.Some? then
      s.(tok := s.tok.(idleHas := None, ret := s.tok.ret + [s.tok.idleHas.value], dropper := IdleThread))
    else s
  }

  // ---- the request thread

  predicate ReqEnabled(s: State, o: Outcome) {
    match s.req
    case RNone => false
    case RDone => false
    case RSelect => if o.Good? then s.requests > 0 else s.tok.ret != []
    case RRecv => s.tok.ret != []
    case RConfirm(_) => o.Bad?
    case RAwait => o.Bad?
    case RLoop => o.Slow? ==> s.buffer > 0 && s.buffer + s.requests > 1
    case RCallAwait => o.Slow? || (o.Bad? && s.link.dead) || (o.Good? && !s.link.dead && s.link.conn.outbound != [])
    case RDrop => HasRoom(s)
    case RExit => s.tok.reqHas.None? || HasRoom(s)
    case _ => true
  }

  function ReqStep(s: State, o: Outcome): State
    requires ReqEnabled(s, o)
  {
    if RSelects(s.req) || RGets(s.req) then ReqAcquire(s, o)
    else if RServes(s.req) then ReqServe(s, o)
    else if RRepairs(s.req) then ReqRepair(s, o)
    else ReqRelease(s, o)
  }

  function ReqTest(s: State, next: ReqPc): State {
    s.(req := if s.healthy then next else RExit)
  }

  function ReqFails(s: State): State {
    s.(req := RExit, healthy := false)
  }

  /** Inside the request loop a failed `health!` leaves only that loop. */
  function ReqLoopTest(s: State, next: ReqPc): State {
    s.(req := if s.healthy then next else RDrop)
  }

  function ReqLoopFails(s: State): State {
    s.(req := RDrop, healthy := false)
  }

  function ReqTakes(s: State): Token
    requires s.tok.ret != []
  {
    s.tok.(reqHas := Some(s.tok.ret[0]), ret := s.tok.ret[1..])
  }

  /** From the `select!` to the confirmation. */
  function ReqAcquire(s: State, o: Outcome): State
    requires ReqEnabled(s, o) && (RSelects(s.req) || RGets(s.req))
  {
    match s.req
    case RSelect =>
      if o.Good? then s.(req := RCheckMsg, requests := s.requests - 1)
      else s.(req := RGot, tok := ReqTakes(s))
    case RCheckMsg => ReqTest(s, RCheckNoIdle).(buffer := if s.healthy then s.buffer + 1 else s.buffer)
    case RCheckNoIdle => ReqTest(s, RNoIdle)
    case RNoIdle =>
      if o.Good? then
        s.(req := RCheckRecv,
           link := s.link.(noidled := true,
             conn := if s.link.clientWrite == s.link.connId then Write(s.link.conn, NoIdle(s.link.period)) else s.link.conn))
      else ReqFails(s)
    case RCheckRecv => ReqTest(s, RRecv)
    case RRecv => s.(req := RCheckConfirm(true), tok := ReqTakes(s))
    case RGot => ReqTest(s, RCheckConfirm(false))
    case RCheckConfirm(work) => ReqTest(s, RConfirm(work))
    case RConfirm(_) => ReqFails(s)
  }

  /** Timeouts set, then requests until the buffer is empty. */
  function ReqServe(s: State, o: Outcome): State
    requires ReqEnabled(s, o) && RServes(s.req)
  {
    match s.req
    case RCheckTimeout => ReqTest(s, RTimeout)
    case RTimeout => if o.Good? then s.(req := RLoop) else ReqFails(s)
    case RLoop =>
      if s.buffer == 0 then s.(req := RDrop)
      else s.(req := if o.Slow? then RLoop else RCall, buffer := s.buffer - 1 + s.requests, requests := 0)
    case RCall =>
      (match o
       case Good => s.(req := RCallAwait, link := s.link.(conn := Write(s.link.conn, Command)))
       case Bad => s.(req := RCheckReport)
       case Slow => s.(req := RCheckReconnect, link := s.link.(dirty := true)))
    case RCallAwait =>
      (match o
       case Good => s.(req := RCall, link := s.link.(conn := s.link.conn.(outbound := s.link.conn.outbound[1..])))
       case Bad => s.(req := RCheckReport)
       case Slow => s.(req := RCheckReconnect, link := s.link.(dirty := true)))
    case RCheckReport => ReqLoopTest(s, RReport)
    case RReport => if o.Good? then s.(req := RLoop) else ReqLoopFails(s)
  }

  /** After a timeout: reconnect, set the write timeout, clone the stream. */
  function ReqRepair(s: State, o: Outcome): State
    requires ReqEnabled(s, o) && RRepairs(s.req)
  {
    match s.req
    case RCheckReconnect => ReqLoopTest(s, RReconnect)
    case RReconnect =>
      (match o
       case Good => s.(req := RCheckWriteTimeout, link := Fresh(s.link, false), tok := s.tok.(reqHas := Some(s.link.connId + 1)))
       case Bad => ReqLoopFails(s)
       case Slow => ReqLoopFails(s).(link := Fresh(s.link, true), tok := s.tok.(reqHas := Some(s.link.connId + 1))))
    case RCheckWriteTimeout => ReqLoopTest(s, RWriteTimeout)
    case RWriteTimeout => if o.Good? then s.(req := RCheckClone) else ReqLoopFails(s)
    case RCheckClone => ReqLoopTest(s, RClone)
    case RClone =>
      if o.Good? then s.(req := RLoop, link := s.link.(clientWrite := s.link.connId)) else ReqLoopFails(s)
  }

  /** A new connection; `dirty` if its handshake did not finish. */
  function Fresh(l: Link, dirty: bool): Link {
    l.(conn := FRESH_CONN, connId := l.connId + 1, dead := false, dirty := dirty)
  }

  /** Dropping the client, waiting for the idle thread, and the way out. */
  function ReqRelease(s: State, o: Outcome): State
    requires ReqEnabled(s, o)
    requires !RSelects(s.req) && !RGets(s.req) && !RServes(s.req) && !RRepairs(s.req)
  {
    match s.req
    case RDrop => ReqGives(s).(req := RCheckAwait)
    case RCheckAwait => ReqTest(s, RAwait)
    case RAwait => ReqFails(s)
    case RExit => ReqGives(s).(req := RUnhealthy)
    case RUnhealthy => s.(req := RShutdown, healthy := false)
    case RShutdown =>
      s.(req := RDone, buffer := 0, link := s.link.(dead := s.link.dead || s.link.clientWrite == s.link.connId))
  }

  function ReqGives(s: State): State {
    if s.tok.reqHas.Some? then
      s.(tok := s.tok.(reqHas := None, ret := s.tok.ret + [s.tok.reqHas.value], dropper := RequestThread))
    else s
  }

  // ---- the main thread

  predicate MainEnabled(s: State, o: Outcome) {
    match s.main
    case MRecv => s.tok.ret != []
    case MAwait => false
    case MJoinIdle => s.idle.IDone?
    case MJoinReq => s.req.RDone?
    case MGive => HasRoom(s)
    case MReturn => HasRoom(s)
    case _ => true
  }

  function MainStep(s: State, o: Outcome): State
    requires MainEnabled(s, o)
  {
    match s.main
    case MStart => s.(main := MRecv, healthy := true)
    case MRecv => s.(main := MCheckConn, tok := s.tok.(mainHas := Some(s.tok.ret[0]), ret := s.tok.ret[1..]))
    case MCheckConn =>
      if s.firstLoop then s.(main := MSpawnIdle, firstLoop := false)
      else
        (match o
         case Good => s.(main := MTimeouts, requests := 0, link := Fresh(s.link, false),
                         tok := s.tok.(mainHas := Some(s.link.connId + 1)))
         case Bad => s.(main := MReturn)
         case Slow => s.(main := MReturn, link := Fresh(s.link, true), tok := s.tok.(mainHas := Some(s.link.connId + 1))))
    case MTimeouts => s.(main := if o.Good? then MSpawnIdle else MReturn)
    case MSpawnIdle => s.(main := MGive, idle := ICheckRecv, link := s.link.(clientWrite := s.link.connId))
    case MGive => MainGives(s).(main := MAwait)
    case MAwait => s
    case MSpawnReq => s.(main := MJoinIdle, req := RSelect, buffer := 0)
    case MJoinIdle => s.(main := MJoinReq)
    case MJoinReq => s.(main := MSleep, idle := INone, req := RNone)
    case MReturn => MainGives(s).(main := MSleep)
    case MSleep => s.(main := MStart)
  }

  function MainGives(s: State): State {
    if s.tok.mainHas.Some? then
      s.(tok := s.tok.(mainHas := None, ret := s.tok.ret + [s.tok.mainHas.value], dropper := MainThread))
    else s
  }

  // ---- steps

  predicate Enabled(s: State, a: Action) {
    match a
    case StepMain(o) => MainEnabled(s, o)
    case StepIdle(o) => IdleEnabled(s, o)
    case StepReq(o) => ReqEnabled(s, o)
    case Confirm(x, y) => x != y && Sending(s, x) && Receiving(s, y)
    case ServerLine => !s.link.dead && s.link.conn.inbound != []
    case ServerEvent => !s.link.dead && s.link.conn.mode.Idling?
    case _ => true
  }

  function Apply(s: State, a: Action): State
    requires Enabled(s, a)
  {
    match a
    case StepMain(o) => MainStep(s, o)
    case StepIdle(o) => IdleStep(s, o)
    case StepReq(o) => ReqStep(s, o)
    case Confirm(x, y) => Rendezvous(s, x, y)
    case Arrive => s.(requests := s.requests + 1)
    case ServerLine => s.(link := s.link.(conn := Serve(s.link.conn)))
    case ServerEvent => s.(link := s.link.(conn := Notify(s.link.conn)))
    case Break => s.(link := s.link.(dead := true))
  }

  predicate Legal(s: State, acts: seq<Action>)
    decreases |acts|
  {
    acts != [] ==> Enabled(s, acts[0]) && Legal(Apply(s, acts[0]), acts[1..])
  }

  function After(s: State, acts: seq<Action>): State
    requires Legal(s, acts)
    decreases |acts|
  {
    if acts == [] then s else After(Apply(s, acts[0]), acts[1..])
  }

  // ---- where the threads are, by what they may hold

  /** Waiting for the client. */
  predicate IWaits(i: IdlePc) {
    i.ICheckRecv? || i.IRecv?
  }

  /** Holding the client, not yet confirmed. */
  predicate IPrepares(i: IdlePc) {
    i.ICheckTimeout? || i.ITimeout? || i.ICheckEnter? || i.IEnter? || i.ICheckConfirm? || i.IConfirm?
  }

  /** Holding the client, confirmed. */
  predicate IReads(i: IdlePc) {
    i.IRead? || i.IEvents? || i.IDrop?
  }

  /** The client is given away, the confirmation is due. */
  predicate IGave(i: IdlePc) {
    i.ICheckAwait? || i.IAwait?
  }

  predicate IGone(i: IdlePc) {
    i.IExit? || i.IDone?
  }

  /** Choosing, or on the way to the client after a `noidle`. */
  predicate RSelects(r: ReqPc) {
    BeforeNoIdle(r) || r.RCheckRecv? || r.RRecv?
  }

  predicate BeforeNoIdle(r: ReqPc) {
    r.RSelect? || r.RCheckMsg? || r.RCheckNoIdle? || r.RNoIdle?
  }

  /** Holding the client, not yet confirmed. */
  predicate RGets(r: ReqPc) {
    r.RGot? || r.RCheckConfirm? || r.RConfirm?
  }

  predicate RServes(r: ReqPc) {
    r.RCheckTimeout? || r.RTimeout? || r.RLoop? || r.RCall? || r.RCallAwait? || r.RCheckReport? || r.RReport?
  }

  predicate RRepairs(r: ReqPc) {
    r.RCheckReconnect? || r.RReconnect? || r.RCheckWriteTimeout? || r.RWriteTimeout? || r.RCheckClone? || r.RClone?
  }

  /** Holding the client, confirmed. */
  predicate RWorks(r: ReqPc) {
    RServes(r) || RRepairs(r) || r.RDrop?
  }

  predicate RGave(r: ReqPc) {
    r.RCheckAwait? || r.RAwait?
  }

  predicate RGone(r: ReqPc) {
    r.RExit? || r.RUnhealthy? || r.RShutdown? || r.RDone?
  }

  predicate MHolds(m: MainPc) {
    m.MCheckConn? || m.MTimeouts? || m.MSpawnIdle? || m.MGive? || m.MReturn?
  }

  /** On a connection whose handshake has finished, before the threads start. */
  predicate Reconnected(m: MainPc) {
    m.MTimeouts? || m.MSpawnIdle?
  }

  predicate MJoins(m: MainPc) {
    m.MJoinIdle? || m.MJoinReq?
  }

  // ---- invariant

  /** The lock-step of the three threads. */
  predicate PhaseInv(s: State) {
    match s.main
    case MGive => IWaits(s.idle) && s.req.RNone?
    case MAwait => (IWaits(s.idle) || IPrepares(s.idle) || IGone(s.idle)) && s.req.RNone?
    case MSpawnReq => (IReads(s.idle) || IGave(s.idle) || IGone(s.idle)) && s.req.RNone?
    case MJoinIdle => Joint(s.idle, s.req)
    case MJoinReq => s.idle.IDone? && Joint(s.idle, s.req)
    case _ => s.idle.INone? && s.req.RNone?
  }

  predicate Joint(i: IdlePc, r: ReqPc) {
    && !r.RNone? && !i.INone?
    && (IWaits(i) ==> RWorks(r) || RGave(r) || RGone(r))
    && (IPrepares(i) ==> RGave(r) || RGone(r))
    && (IReads(i) ==> RSelects(r) || RGone(r))
    && (IGave(i) ==> RSelects(r) || RGets(r) || RGone(r))
  }

  function Has(o: Option<nat>): nat {
    if o.Some? then 1 else 0
  }

  /** One client, held by whoever must hold it, on the newest connection. */
  predicate TokenInv(s: State) {
    && Has(s.tok.mainHas) + Has(s.tok.idleHas) + Has(s.tok.reqHas) + |s.tok.ret| == 1
    && (s.tok.mainHas.Some? <==> MHolds(s.main))
    && (IPrepares(s.idle) || IReads(s.idle) ==> s.tok.idleHas.Some?)
    && (s.tok.idleHas.Some? ==> IPrepares(s.idle) || IReads(s.idle) || s.idle.IExit?)
    && (RGets(s.req) || RWorks(s.req) ==> s.tok.reqHas.Some?)
    && (s.tok.reqHas.Some? ==> RGets(s.req) || RWorks(s.req) || s.req.RExit?)
    && (s.tok.mainHas.Some? ==> s.tok.mainHas.value == s.link.connId)
    && (s.tok.idleHas.Some? ==> s.tok.idleHas.value == s.link.connId)
    && (s.tok.reqHas.Some? ==> s.tok.reqHas.value == s.link.connId)
    && (s.tok.ret != [] ==> s.tok.ret[0] == s.link.connId)
  }

  /** Who left the client in the channel. */
  predicate DropperInv(s: State) {
    s.tok.ret != [] ==>
      && (IWaits(s.idle) ==> !s.tok.dropper.IdleThread?)
      && (RSelects(s.req) || s.main.MSpawnReq? ==> s.tok.dropper.IdleThread?)
  }

  /** HEALTHY is false only while a thread is on its way out. */
  predicate HealthInv(s: State) {
    !s.healthy ==>
      || IGone(s.idle)
      || s.req.RDrop? || s.req.RCheckAwait? || RGone(s.req)
      || s.main.MStart? || s.main.MSleep?
  }

  /** A client that is out of step, or whose writer is out of date, is never used. */
  predicate SuspectInv(s: State) {
    && (s.firstLoop ==> !s.link.dirty && (s.main.MStart? || s.main.MRecv? || s.main.MCheckConn?))
    && (s.link.dirty ==>
          || (s.idle.INone? && !Reconnected(s.main))
          || s.req.RCheckReconnect? || s.req.RReconnect?
          || Doomed(s))
    && (s.link.clientWrite != s.link.connId ==>
          || s.idle.INone?
          || s.req.RCheckWriteTimeout? || s.req.RWriteTimeout? || s.req.RCheckClone? || s.req.RClone?
          || Doomed(s))
  }

  /** Both threads can only leave. */
  predicate Doomed(s: State) {
    && !s.healthy
    && (IWaits(s.idle) || s.idle.ICheckTimeout? || IGone(s.idle))
    && (s.req.RDrop? || s.req.RCheckAwait? || RGone(s.req))
  }

  /** Asked for idle, reply unread. */
  predicate InPeriod(i: IdlePc) {
    i.ICheckConfirm? || i.IConfirm? || i.IRead?
  }

  predicate WireInv(s: State) {
    s.link.dead ||
    (if s.link.dirty then Harmless(s.link.conn)
     else if RWorks(s.req) then
       if s.req.RCallAwait? then CommandExchange(s.link.conn) else Quiet(s.link.conn)
     else if InPeriod(s.idle) then IdleExchange(s.link.conn, s.link.period)
     else if IGone(s.idle) || (s.idle.INone? && !Reconnected(s.main) && !s.firstLoop) then Harmless(s.link.conn)
     else Quiet(s.link.conn))
  }

  /** At most one `noidle` a period, and none can meet a later period. */
  predicate NoIdleInv(s: State) {
    && (BeforeNoIdle(s.req) || s.main.MSpawnReq? || s.idle.ICheckConfirm? || s.idle.IConfirm? ==> !s.link.noidled)
    && ((s.req.RCheckRecv? || s.req.RRecv?) && s.idle.IRead? && !s.link.dead ==> Woken(s.link.conn))
    && (s.link.dead || OnTarget(s.link.conn, s.link.period))
    && (s.req.RDone? ==> s.link.dead || s.link.clientWrite != s.link.connId)
  }

  predicate Inv(s: State) {
    && PhaseInv(s) && TokenInv(s) && DropperInv(s) && HealthInv(s)
    && SuspectInv(s) && WireInv(s) && NoIdleInv(s)
  }

  // ---- every step keeps the invariant

  lemma AcquireKeeps(s: State, o: Outcome)
    requires Inv(s) && IdleEnabled(s, o) && (IWaits(s.idle) || IPrepares(s.idle))
    ensures Inv(IdleAcquire(s, o))
  {
    if s.idle.IEnter? {
      EnterKeeps(s, o);
    } else if s.idle.IRecv? {
      IdleTakeKeeps(s, o);
    } else {
      IdleTestKeeps(s, o);
    }
  }

  lemma EnterKeeps(s: State, o: Outcome)
    requires Inv(s) && IdleEnabled(s, o) && s.idle.IEnter?
    ensures Inv(IdleAcquire(s, o))
  {
    SignificantAppend(s.link.conn.inbound, Idle(s.link.period + 1));
    if !s.link.dead { OnTargetWrite(s.link.conn, s.link.period, Idle(s.link.period + 1)); }
  }

  lemma IdleTestKeeps(s: State, o: Outcome)
    requires Inv(s) && IdleEnabled(s, o)
    requires s.idle.ICheckRecv? || (IPrepares(s.idle) && !s.idle.IEnter?)
    ensures Inv(IdleAcquire(s, o))
  {
    if s.idle.ICheckConfirm? || s.idle.IConfirm? {
      IdleConfirmKeeps(s, o);
    }
  }

  lemma IdleConfirmKeeps(s: State, o: Outcome)
    requires Inv(s) && IdleEnabled(s, o) && (s.idle.ICheckConfirm? || s.idle.IConfirm?)
    ensures Inv(IdleAcquire(s, o))
  {
  }

  lemma IdleTakeKeeps(s: State, o: Outcome)
    requires Inv(s) && IdleEnabled(s, o) && s.idle.IRecv?
    ensures Inv(IdleAcquire(s, o))
  {
  }

  lemma ReleaseKeeps(s: State, o: Outcome)
    requires Inv(s) && IdleEnabled(s, o) && !IWaits(s.idle) && !IPrepares(s.idle)
    ensures Inv(IdleRelease(s, o))
  {
    if s.idle.IDrop? || s.idle.IExit? {
      IdleGiveKeeps(s, o);
    }
  }

  lemma IdleGiveKeeps(s: State, o: Outcome)
    requires Inv(s) && IdleEnabled(s, o) && (s.idle.IDrop? || s.idle.IExit?)
    ensures Inv(IdleRelease(s, o))
  {
  }

  lemma ReqAcquireKeeps(s: State, o: Outcome)
    requires Inv(s) && ReqEnabled(s, o) && (RSelects(s.req) || RGets(s.req))
    ensures Inv(ReqAcquire(s, o))
  {
    if s.req.RNoIdle? {
      NoIdleKeeps(s, o);
    } else if s.req.RSelect? || s.req.RRecv? {
      ReqTakeKeeps(s, o);
    } else {
      ReqTestKeeps(s, o);
    }
  }

  lemma NoIdleKeeps(s: State, o: Outcome)
    requires Inv(s) && ReqEnabled(s, o) && s.req.RNoIdle?
    ensures Inv(ReqAcquire(s, o))
  {
    SignificantAppend(s.link.conn.inbound, NoIdle(s.link.period));
    if !s.link.dead {
      OnTargetWrite(s.link.conn, s.link.period, NoIdle(s.link.period));
      if s.idle.IRead? { NoIdleWakes(s.link.conn, s.link.period, s.link.period); }
    }
  }

  lemma ReqTakeKeeps(s: State, o: Outcome)
    requires Inv(s) && ReqEnabled(s, o) && (s.req.RSelect? || s.req.RRecv?)
    ensures Inv(ReqAcquire(s, o))
  {
    if s.req.RSelect? {
      SelectKeeps(s, o);
    } else {
      RecvKeeps(s, o);
    }
  }

  lemma SelectKeeps(s: State, o: Outcome)
    requires Inv(s) && ReqEnabled(s, o) && (s.req.RSelect?)
    ensures Inv(ReqAcquire(s, o))
  {
  }

  lemma RecvKeeps(s: State, o: Outcome)
    requires Inv(s) && ReqEnabled(s, o) && (s.req.RRecv?)
    ensures Inv(ReqAcquire(s, o))
  {
  }

  lemma ReqTestKeeps(s: State, o: Outcome)
    requires Inv(s) && ReqEnabled(s, o)
    requires s.req.RCheckMsg? || s.req.RCheckNoIdle? || s.req.RCheckRecv? || RGets(s.req)
    ensures Inv(ReqAcquire(s, o))
  {
    if s.req.RCheckMsg? || s.req.RCheckNoIdle? || s.req.RCheckRecv? {
      BeforeTakeKeeps(s, o);
    } else {
      BeforeConfirmKeeps(s, o);
    }
  }

  lemma BeforeTakeKeeps(s: State, o: Outcome)
    requires Inv(s) && ReqEnabled(s, o) && (s.req.RCheckMsg? || s.req.RCheckNoIdle? || s.req.RCheckRecv?)
    ensures Inv(ReqAcquire(s, o))
  {
    if s.req.RCheckMsg? {
      PushKeeps(s, o);
    } else if s.req.RCheckNoIdle? {
      BeforeNoIdleKeeps(s, o);
    } else {
      BeforeRecvKeeps(s, o);
    }
  }

  lemma PushKeeps(s: State, o: Outcome)
    requires Inv(s) && ReqEnabled(s, o) && s.req.RCheckMsg?
    ensures Inv(ReqAcquire(s, o))
  {
  }

  lemma BeforeNoIdleKeeps(s: State, o: Outcome)
    requires Inv(s) && ReqEnabled(s, o) && s.req.RCheckNoIdle?
    ensures Inv(ReqAcquire(s, o))
  {
  }

  lemma BeforeRecvKeeps(s: State, o: Outcome)
    requires Inv(s) && ReqEnabled(s, o) && s.req.RCheckRecv?
    ensures Inv(ReqAcquire(s, o))
  {
  }

  lemma BeforeConfirmKeeps(s: State, o: Outcome)
    requires Inv(s) && ReqEnabled(s, o) && (RGets(s.req))
    ensures Inv(ReqAcquire(s, o))
  {
    if s.req.RConfirm? { ReqConfirmKeeps(s, o); } else { ReqCheckConfirmKeeps(s, o); }
  }

  lemma ReqCheckConfirmKeeps(s: State, o: Outcome)
    requires Inv(s) && ReqEnabled(s, o) && (s.req.RGot? || s.req.RCheckConfirm?)
    ensures Inv(ReqAcquire(s, o))
  {
  }

  lemma ReqConfirmKeeps(s: State, o: Outcome)
    requires Inv(s) && ReqEnabled(s, o) && s.req.RConfirm?
    ensures Inv(ReqAcquire(s, o))
  {
  }

  lemma ReqServeKeeps(s: State, o: Outcome)
    requires Inv(s) && ReqEnabled(s, o) && RServes(s.req)
    ensures Inv(ReqServe(s, o))
  {
    if s.req.RCall? || s.req.RCallAwait? {
      CallbackKeeps(s, o);
    } else {
      LoopKeeps(s, o);
    }
  }

  lemma LoopKeeps(s: State, o: Outcome)
    requires Inv(s) && ReqEnabled(s, o) && RServes(s.req) && !s.req.RCall? && !s.req.RCallAwait?
    ensures Inv(ReqServe(s, o))
  {
    if s.req.RCheckTimeout? || s.req.RTimeout? { ServeStartKeeps(s, o); } else { TurnKeeps(s, o); }
  }

  lemma ServeStartKeeps(s: State, o: Outcome)
    requires Inv(s) && ReqEnabled(s, o) && (s.req.RCheckTimeout? || s.req.RTimeout?)
    ensures Inv(ReqServe(s, o))
  {
  }

  lemma TurnKeeps(s: State, o: Outcome)
    requires Inv(s) && ReqEnabled(s, o) && (s.req.RLoop? || s.req.RCheckReport? || s.req.RReport?)
    ensures Inv(ReqServe(s, o))
  {
  }

  lemma CallbackKeeps(s: State, o: Outcome)
    requires Inv(s) && ReqEnabled(s, o) && (s.req.RCall? || s.req.RCallAwait?)
    ensures Inv(ReqServe(s, o))
  {
    if s.req.RCall? && !s.link.dead {
      SignificantAppend(s.link.conn.inbound, Command);
      OnTargetWrite(s.link.conn, s.link.period, Command);
    }
  }

  lemma ReqRepairKeeps(s: State, o: Outcome)
    requires Inv(s) && ReqEnabled(s, o) && RRepairs(s.req)
    ensures Inv(ReqRepair(s, o))
  {
    if s.req.RReconnect? || s.req.RClone? {
      ReconnectKeeps(s, o);
    } else {
      RepairTestKeeps(s, o);
    }
  }

  lemma ReconnectKeeps(s: State, o: Outcome)
    requires Inv(s) && ReqEnabled(s, o) && (s.req.RReconnect? || s.req.RClone?)
    ensures Inv(ReqRepair(s, o))
  {
  }

  lemma RepairTestKeeps(s: State, o: Outcome)
    requires Inv(s) && ReqEnabled(s, o) && (s.req.RCheckReconnect? || s.req.RCheckWriteTimeout? || s.req.RWriteTimeout? || s.req.RCheckClone?)
    ensures Inv(ReqRepair(s, o))
  {
  }

  lemma ReqReleaseKeeps(s: State, o: Outcome)
    requires Inv(s) && ReqEnabled(s, o)
    requires !RSelects(s.req) && !RGets(s.req) && !RServes(s.req) && !RRepairs(s.req)
    ensures Inv(ReqRelease(s, o))
  {
    if s.req.RDrop? || s.req.RExit? {
      ReqGiveKeeps(s, o);
    } else {
      ReqLeaveKeeps(s, o);
    }
  }

  lemma ReqGiveKeeps(s: State, o: Outcome)
    requires Inv(s) && ReqEnabled(s, o) && (s.req.RDrop? || s.req.RExit?)
    ensures Inv(ReqRelease(s, o))
  {
    if s.req.RDrop? {
      ReqDropKeeps(s, o);
    } else {
      ReqExitKeeps(s, o);
    }
  }

  lemma ReqDropKeeps(s: State, o: Outcome)
    requires Inv(s) && ReqEnabled(s, o) && (s.req.RDrop?)
    ensures Inv(ReqRelease(s, o))
  {
  }

  lemma ReqExitKeeps(s: State, o: Outcome)
    requires Inv(s) && ReqEnabled(s, o) && (s.req.RExit?)
    ensures Inv(ReqRelease(s, o))
  {
  }

  lemma ReqLeaveKeeps(s: State, o: Outcome)
    requires Inv(s) && ReqEnabled(s, o)
    requires RGave(s.req) || s.req.RUnhealthy? || s.req.RShutdown?
    ensures Inv(ReqRelease(s, o))
  {
    if RGave(s.req) {
      ReqAwaitKeeps(s, o);
    } else {
      ReqEndKeeps(s, o);
    }
  }

  lemma ReqAwaitKeeps(s: State, o: Outcome)
    requires Inv(s) && ReqEnabled(s, o) && (RGave(s.req))
    ensures Inv(ReqRelease(s, o))
  {
  }

  lemma ReqEndKeeps(s: State, o: Outcome)
    requires Inv(s) && ReqEnabled(s, o) && (s.req.RUnhealthy? || s.req.RShutdown?)
    ensures Inv(ReqRelease(s, o))
  {
  }

  lemma MainKeeps(s: State, o: Outcome)
    requires Inv(s) && MainEnabled(s, o)
    ensures Inv(MainStep(s, o))
  {
    if s.main.MRecv? || s.main.MCheckConn? {
      MainTakeKeeps(s, o);
    } else if s.main.MGive? || s.main.MReturn? {
      MainGiveKeeps(s, o);
    } else {
      MainSpawnKeeps(s, o);
    }
  }

  lemma MainTakeKeeps(s: State, o: Outcome)
    requires Inv(s) && MainEnabled(s, o) && (s.main.MRecv? || s.main.MCheckConn?)
    ensures Inv(MainStep(s, o))
  {
  }

  lemma MainGiveKeeps(s: State, o: Outcome)
    requires Inv(s) && MainEnabled(s, o) && (s.main.MGive? || s.main.MReturn?)
    ensures Inv(MainStep(s, o))
  {
  }

  lemma MainSpawnKeeps(s: State, o: Outcome)
    requires Inv(s) && MainEnabled(s, o)
    requires !s.main.MRecv? && !s.main.MCheckConn? && !s.main.MGive? && !s.main.MReturn?
    ensures Inv(MainStep(s, o))
  {
    if s.main.MSpawnIdle? || s.main.MSpawnReq? {
      SpawnKeeps(s, o);
    } else if s.main.MTimeouts? {
      TimeoutsKeeps(s, o);
    } else {
      JoinKeeps(s, o);
    }
  }

  lemma SpawnKeeps(s: State, o: Outcome)
    requires Inv(s) && MainEnabled(s, o) && (s.main.MSpawnIdle? || s.main.MSpawnReq?)
    ensures Inv(MainStep(s, o))
  {
  }

  lemma TimeoutsKeeps(s: State, o: Outcome)
    requires Inv(s) && MainEnabled(s, o) && s.main.MTimeouts?
    ensures Inv(MainStep(s, o))
  {
  }

  lemma JoinKeeps(s: State, o: Outcome)
    requires Inv(s) && MainEnabled(s, o) && (MJoins(s.main) || s.main.MStart? || s.main.MSleep?)
    ensures Inv(MainStep(s, o))
  {
    if s.main.MJoinIdle? { JoinIdleKeeps(s, o); } else if s.main.MJoinReq? { JoinReqKeeps(s, o); }
  }

  lemma JoinIdleKeeps(s: State, o: Outcome)
    requires Inv(s) && MainEnabled(s, o) && s.main.MJoinIdle?
    ensures Inv(MainStep(s, o))
  {
  }

  lemma JoinReqKeeps(s: State, o: Outcome)
    requires Inv(s) && MainEnabled(s, o) && s.main.MJoinReq?
    ensures Inv(MainStep(s, o))
  {
  }

  lemma ConfirmKeeps(s: State, x: Thread, y: Thread)
    requires Inv(s) && x != y && Sending(s, x) && Receiving(s, y)
    ensures Inv(Rendezvous(s, x, y))
  {
  }

  lemma WorldKeeps(s: State, a: Action)
    requires Inv(s) && Enabled(s, a) && (a.Arrive? || a.ServerLine? || a.ServerEvent? || a.Break?)
    ensures Inv(Apply(s, a))
  {
    match a
    case ServerLine => LineKeeps(s);
    case ServerEvent => EventKeeps(s);
    case _ =>
  }

  lemma LineKeeps(s: State)
    requires Inv(s) && Enabled(s, ServerLine)
    ensures Inv(Apply(s, ServerLine))
  {
    ExchangeStep(s.link.conn, s.link.period);
    OnTargetServe(s.link.conn, s.link.period);
  }

  lemma EventKeeps(s: State)
    requires Inv(s) && Enabled(s, ServerEvent)
    ensures Inv(Apply(s, ServerEvent))
  {
    ServeAllGrows(Notify(s.link.conn));
    OnTargetNotify(s.link.conn, s.link.period);
  }

  lemma StepKeeps(s: State, a: Action)
    requires Inv(s) && Enabled(s, a)
    ensures Inv(Apply(s, a))
  {
    match a
    case StepMain(o) => MainKeeps(s, o);
    case StepIdle(o) =>
      if IWaits(s.idle) || IPrepares(s.idle) { AcquireKeeps(s, o); } else { ReleaseKeeps(s, o); }
    case StepReq(o) =>
      if RSelects(s.req) || RGets(s.req) { ReqAcquireKeeps(s, o); }
      else if RServes(s.req) { ReqServeKeeps(s, o); }
      else if RRepairs(s.req) { ReqRepairKeeps(s, o); }
      else { ReqReleaseKeeps(s, o); }
    case Confirm(x, y) => ConfirmKeeps(s, x, y);
    case _ => WorldKeeps(s, a);
  }

  lemma {:induction false} RunKeeps(s: State, acts: seq<Action>)
    requires Inv(s) && Legal(s, acts)
    ensures Inv(After(s, acts))
    decreases |acts|
  {
    if acts != [] {
      StepKeeps(s, acts[0]);
      RunKeeps(Apply(s, acts[0]), acts[1..]);
    }
  }

  // ---- main results

  /** Every run from the start of client_task. */
  predicate IsRun(acts: seq<Action>) {
    Legal(INIT, acts)
  }

  function End(acts: seq<Action>): State
    requires IsRun(acts)
  {
    After(INIT, acts)
  }

  lemma InvReached(acts: seq<Action>)
    requires IsRun(acts)
    ensures Inv(End(acts))
  {
    RunKeeps(INIT, acts);
  }

  /** A thread is about to put a client into the return channel. */
  predicate Gives(s: State) {
    || s.main.MGive? || s.main.MReturn?
    || s.idle.IDrop? || (s.idle.IExit? && s.tok.idleHas.Some?)
    || s.req.RDrop? || (s.req.RExit? && s.tok.reqHas.Some?)
  }

  /** Exactly one of the three threads and the channel has the client, it is on the newest
      connection, no sender ever blocks on the channel, and no thread takes back what it dropped. */
  lemma TokenAlternates(acts: seq<Action>)
    requires IsRun(acts)
    ensures var s := End(acts);
      && Has(s.tok.mainHas) + Has(s.tok.idleHas) + Has(s.tok.reqHas) + |s.tok.ret| == 1
      && (Gives(s) ==> HasRoom(s))
      && (s.tok.ret != [] ==> s.tok.ret == [s.link.connId])
      && (s.tok.ret != [] && s.idle.IRecv? ==> !s.tok.dropper.IdleThread?)
      && (s.tok.ret != [] && (s.req.RSelect? || s.req.RRecv?) ==> s.tok.dropper.IdleThread?)
  {
    InvReached(acts);
  }

  /** Whenever a confirmation can pass, only one pair can meet: the idle thread and main before
      the request thread exists, the two workers afterwards; and the sender holds the client. */
  lemma ConfirmationsCross(acts: seq<Action>, x: Thread, y: Thread)
    requires IsRun(acts) && Enabled(End(acts), Confirm(x, y))
    ensures var s := End(acts);
      && (s.req.RNone? ==> x.IdleThread? && y.MainThread?)
      && (!s.req.RNone? ==> (x.IdleThread? && y.RequestThread?) || (x.RequestThread? && y.IdleThread?))
      && (if x.IdleThread? then s.tok.idleHas.Some? else s.tok.reqHas.Some?)
      && (forall u, v | Enabled(s, Confirm(u, v)) :: u == x && v == y)
  {
    InvReached(acts);
  }

  /** The two workers speak to MPD in turns: nothing illegal is sent; callbacks run with the
      server out of idle and no reply unread; a `noidle` goes to the client's connection, once
      per period, after the `idle` it is meant for; and it can end no other period. */
  lemma TwoThreadWireSafety(acts: seq<Action>)
    requires IsRun(acts)
    ensures var s := End(acts); var c := s.link.conn;
      && (!s.link.dead ==> c.mode != Fault)
      && (!s.link.dead && c.mode.Idling? && c.inbound != [] ==> c.inbound[0] == NoIdle(c.mode.period))
      && (s.req.RCall? && !s.link.dead ==> Quiet(c))
      && (s.req.RCallAwait? && !s.link.dead && c.outbound != [] ==> c.outbound == [CommandReply])
      && (s.idle.IRead? && !s.link.dead && c.outbound != [] ==> c.outbound == [IdleReply(s.link.period)])
      && (s.req.RNoIdle? ==> !s.link.noidled && s.link.clientWrite == s.link.connId)
      && (s.req.RNoIdle? && s.idle.IRead? && !s.link.dead ==> IdleExchange(c, s.link.period))
      && (s.req.RNoIdle? && !s.link.dead && c.mode.Idling? ==> c.mode.period == s.link.period)
  {
    InvReached(acts);
    var s := End(acts);
    var c := s.link.conn;
    if !s.link.dead && c.inbound != [] {
      ExchangeStep(c, s.link.period);
      OnTargetServe(c, s.link.period);
    }
    if !s.link.dead && c.mode.Idling? {
      NewestPeriod(c, s.link.period);
    }
  }

  /** With only `noidle` lines under way the server idles in the newest period. */
  lemma NewestPeriod(c: Conn, p: nat)
    requires Harmless(c) && c.mode.Idling? && OnTarget(c, p)
    ensures c.mode.period == p
  {
    NoNewIdle(c.mode.period, c.inbound);
  }

  lemma {:induction false} NoNewIdle(p: nat, lines: seq<Line>)
    requires Significant(lines) == []
    ensures LastIdle(Some(p), lines) == Some(p)
    decreases lines
  {
    if lines != [] { NoNewIdle(p, lines[1..]); }
  }

  // ---- recovery

  /** Once both workers are gone the client is in the return channel, and main's own steps
      alone take it and try the next connection. */
  lemma TokenRecovered(acts: seq<Action>) returns (more: seq<Action>)
    requires IsRun(acts) && MJoins(End(acts).main)
    requires End(acts).idle.IDone? && End(acts).req.RDone?
    ensures End(acts).tok.ret == [End(acts).link.connId]
    ensures forall i | 0 <= i < |more| :: more[i] == StepMain(Good)
    ensures Legal(End(acts), more) && After(End(acts), more).main.MCheckConn?
  {
    InvReached(acts);
    more := MainTakes(End(acts));
  }

  function MainDistance(m: MainPc): nat {
    match m
    case MJoinIdle => 5
    case MJoinReq => 4
    case MSleep => 3
    case MStart => 2
    case MRecv => 1
    case _ => 0
  }

  lemma {:induction false} MainTakes(s: State) returns (more: seq<Action>)
    requires 0 < MainDistance(s.main) && |s.tok.ret| == 1
    requires MJoins(s.main) ==> s.idle.IDone? && s.req.RDone?
    ensures forall i | 0 <= i < |more| :: more[i] == StepMain(Good)
    ensures Legal(s, more) && After(s, more).main.MCheckConn?
    decreases MainDistance(s.main)
  {
    var a := StepMain(Good);
    var t := Apply(s, a);
    if s.main.MRecv? {
      more := [a];
      assert more[1..] == [];
    } else {
      var rest := MainTakes(t);
      more := [a] + rest;
      assert more[1..] == rest;
    }
  }

  /** A worker can act without waiting for the network. The reads count only when a whole
      reply is there or the connection is dead. */
  predicate IdleCanMove(s: State) {
    if s.idle.IRead? then s.link.dead || s.link.conn.outbound != [] else IdleEnabled(s, Bad)
  }

  predicate ReqCanMove(s: State) {
    match s.req
    case RCallAwait => s.link.dead || s.link.conn.outbound != []
    case RSelect => s.requests > 0 || s.tok.ret != []
    case _ => ReqEnabled(s, Bad)
  }

  /** What threads that cannot move wait for, when a confirmation's timeout counts as a move. */
  predicate Waits(s: State) {
    || (s.idle.IDone? && s.req.RDone?)
    || (s.healthy && s.idle.IRead? && s.req.RSelect? && s.requests == 0)
    || (s.healthy && s.idle.IRead? && s.req.RRecv? && Woken(s.link.conn))
    || (s.req.RCallAwait? && Woken(s.link.conn))
  }

  lemma BlockedOnServer(s: State)
    requires Inv(s) && MJoins(s.main) && !IdleCanMove(s) && !ReqCanMove(s)
    ensures Waits(s)
  {
    if s.req.RCallAwait? {
      CommandAnswered(s.link.conn);
    }
  }

  function IdleRank(i: IdlePc): nat {
    match i
    case INone => 0
    case IDone => 0
    case IExit => 1
    case IRead => 6
    case IEvents => 5
    case IDrop => 4
    case IConfirm => 7
    case IRecv => 3
    case ITimeout => 3
    case IEnter => 3
    case IAwait => 3
    case _ => 2
  }

  function ReqRank(r: ReqPc, load: nat): nat {
    match r
    case RNone => 0
    case RDone => 0
    case RShutdown => 1
    case RUnhealthy => 2
    case RExit => 3
    case RSelect => 5
    case RNoIdle => 5
    case RRecv => 5
    case RDrop => 5
    case RConfirm(_) => 6
    case RAwait => 6
    case RCheckReport => 6
    case RCheckReconnect => 6
    case RCheckWriteTimeout => 6
    case RCheckClone => 6
    case RReconnect => 7
    case RWriteTimeout => 7
    case RCall => 8
    case RCallAwait => 8
    case RLoop => 10 + load
    case RTimeout => 20 + load
    case RReport => 20 + load
    case RClone => 20 + load
    case _ => 4
  }

  function Rank(s: State): nat {
    IdleRank(s.idle) + ReqRank(s.req, s.buffer + s.requests)
  }

  /** A step inside a callback that has not ended. */
  predicate InsideCallback(s: State, a: Action) {
    a == StepReq(Good) && (s.req.RCall? || s.req.RCallAwait?)
  }

  /** Once HEALTHY is false both threads are on their way out: each of their steps, and each
      confirmation, brings the end nearer; a new request costs one step, the rest of the world none. */
  lemma UnhealthyWindsDown(s: State, a: Action)
    requires Enabled(s, a) && !s.healthy && MJoins(s.main) && MJoins(Apply(s, a).main)
    ensures !Apply(s, a).healthy
    ensures (a.StepIdle? || a.StepReq? || a.Confirm?) && !InsideCallback(s, a) ==> Rank(Apply(s, a)) < Rank(s)
    ensures InsideCallback(s, a) || a.StepMain? || a.ServerLine? || a.ServerEvent? || a.Break? ==>
      Rank(Apply(s, a)) == Rank(s)
    ensures a.Arrive? ==> Rank(Apply(s, a)) <= Rank(s) + 1
  {
    match a
    case StepIdle(o) => IdleWindsDown(s, o);
    case StepReq(o) => ReqWindsDown(s, o);
    case _ =>
  }

  lemma IdleWindsDown(s: State, o: Outcome)
    requires IdleEnabled(s, o) && !s.healthy
    ensures var t := IdleStep(s, o); !t.healthy && t.req == s.req && t.main == s.main && Rank(t) < Rank(s)
  {
  }

  lemma ReqWindsDown(s: State, o: Outcome)
    requires ReqEnabled(s, o) && !s.healthy
    ensures var t := ReqStep(s, o); !t.healthy && t.idle == s.idle && t.main == s.main
    ensures if InsideCallback(s, StepReq(o)) then Rank(ReqStep(s, o)) == Rank(s)
            else Rank(ReqStep(s, o)) < Rank(s)
  {
    if RSelects(s.req) || RGets(s.req) {
      AcquireWindsDown(s, o);
    } else if RServes(s.req) {
      ServeWindsDown(s, o);
    } else if RRepairs(s.req) {
      RepairWindsDown(s, o);
    } else {
      ReleaseWindsDown(s, o);
    }
  }

  lemma RepairWindsDown(s: State, o: Outcome)
    requires ReqEnabled(s, o) && !s.healthy && RRepairs(s.req)
    ensures var t := ReqRepair(s, o); !t.healthy && t.idle == s.idle && t.main == s.main && Rank(t) < Rank(s)
  {
  }

  lemma ReleaseWindsDown(s: State, o: Outcome)
    requires ReqEnabled(s, o) && !s.healthy
    requires !RSelects(s.req) && !RGets(s.req) && !RServes(s.req) && !RRepairs(s.req)
    ensures var t := ReqRelease(s, o); !t.healthy && t.idle == s.idle && t.main == s.main && Rank(t) < Rank(s)
  {
  }

  lemma AcquireWindsDown(s: State, o: Outcome)
    requires ReqEnabled(s, o) && !s.healthy && (RSelects(s.req) || RGets(s.req))
    ensures var t := ReqAcquire(s, o); !t.healthy && t.idle == s.idle && t.main == s.main && Rank(t) < Rank(s)
  {
  }

  lemma ServeWindsDown(s: State, o: Outcome)
    requires ReqEnabled(s, o) && !s.healthy && RServes(s.req)
    ensures var t := ReqServe(s, o); !t.healthy && t.idle == s.idle && t.main == s.main
    ensures if InsideCallback(s, StepReq(o)) then Rank(ReqServe(s, o)) == Rank(s)
            else Rank(ReqServe(s, o)) < Rank(s)
  {
  }

  /** So a failure is always recovered from: from any unhealthy state after the first hand-over
      the threads can run to their end, and main then holds the client and reconnects. */
  lemma RecoveryCompletes(acts: seq<Action>) returns (more: seq<Action>)
    requires IsRun(acts) && MJoins(End(acts).main) && !End(acts).healthy
    ensures Legal(End(acts), more)
    ensures After(End(acts), more).main.MCheckConn? && After(End(acts), more).tok.mainHas.Some?
  {
    InvReached(acts);
    more := RunsOut(End(acts));
    RunKeeps(End(acts), more);
  }

  lemma {:induction false} RunsOut(s: State) returns (more: seq<Action>)
    requires Inv(s) && MJoins(s.main) && !s.healthy
    ensures Legal(s, more) && After(s, more).main.MCheckConn?
    decreases Rank(s)
  {
    if s.idle.IDone? && s.req.RDone? {
      more := MainTakes(s);
    } else {
      var a := NextOut(s);
      StepKeeps(s, a);
      UnhealthyWindsDown(s, a);
      var rest := RunsOut(Apply(s, a));
      more := [a] + rest;
      assert more[1..] == rest;
    }
  }

  /** Some worker can step; a callback blocked on its reply times out. */
  lemma NextOut(s: State) returns (a: Action)
    requires Inv(s) && MJoins(s.main) && !s.healthy && !(s.idle.IDone? && s.req.RDone?)
    ensures Enabled(s, a) && (a.StepIdle? || a.StepReq?) && !InsideCallback(s, a)
  {
    if IdleCanMove(s) {
      a := StepIdle(Bad);
    } else if s.req.RCallAwait? {
      a := StepReq(Slow);
    } else {
      if !ReqCanMove(s) { BlockedOnServer(s); }
      a := StepReq(if s.req.RSelect? && s.requests > 0 then Good else Bad);
    }
  }

  // ---- the first hand-over

  /** Main waits for the first confirmation and the idle thread is gone. */
  predicate Stuck(s: State) {
    s.main.MAwait? && s.idle.IDone? && s.req.RNone?
  }

  /** Main waits for that confirmation without a timeout: an idle thread that fails before it
      leaves main, and with it every reconnect, waiting for ever. */
  lemma {:induction false} StuckForever(s: State, acts: seq<Action>)
    requires Stuck(s) && Legal(s, acts)
    ensures Stuck(After(s, acts)) && After(s, acts).tok == s.tok
    decreases |acts|
  {
    if acts != [] {
      StuckForever(Apply(s, acts[0]), acts[1..]);
    }
  }

  /** Exactly then: while main waits, the hand-over can still complete if and only if the idle
      thread has not left its loop. */
  lemma FirstHandoverExactly(acts: seq<Action>)
    requires IsRun(acts) && End(acts).main.MAwait?
    ensures (exists more :: Legal(End(acts), more) && After(End(acts), more).main.MSpawnReq?)
       <==> !IGone(End(acts).idle)
  {
    InvReached(acts);
    var s := End(acts);
    if IGone(s.idle) {
      forall more | Legal(s, more) ensures !After(s, more).main.MSpawnReq? { GoneForever(s, more); }
    } else {
      var more := HandoverCompletes(s);
      assert Legal(s, more) && After(s, more).main.MSpawnReq?;
    }
  }

  lemma {:induction false} GoneForever(s: State, acts: seq<Action>)
    requires s.main.MAwait? && IGone(s.idle) && s.req.RNone? && Legal(s, acts)
    ensures After(s, acts).main.MAwait?
    decreases |acts|
  {
    if acts != [] {
      GoneForever(Apply(s, acts[0]), acts[1..]);
    }
  }

  function HandoverDistance(i: IdlePc): nat {
    match i
    case ICheckRecv => 8
    case IRecv => 7
    case ICheckTimeout => 6
    case ITimeout => 5
    case ICheckEnter => 4
    case IEnter => 3
    case ICheckConfirm => 2
    case _ => 1
  }

  lemma {:induction false} HandoverCompletes(s: State) returns (more: seq<Action>)
    requires Inv(s) && s.main.MAwait? && !IGone(s.idle)
    ensures Legal(s, more) && After(s, more).main.MSpawnReq?
    decreases HandoverDistance(s.idle)
  {
    if s.idle.IConfirm? {
      more := [Confirm(IdleThread, MainThread)];
      assert more[1..] == [];
    } else {
      var a := StepIdle(Good);
      StepKeeps(s, a);
      var rest := HandoverCompletes(Apply(s, a));
      more := [a] + rest;
      assert more[1..] == rest;
    }
  }

  /** Both are possible: a run that ends stuck. */
  lemma FirstHandoverCanFail() returns (acts: seq<Action>)
    ensures IsRun(acts) && Stuck(End(acts))
  {
    acts := FailFrom(INIT);
  }

  function FailDistance(s: State): nat {
    (match s.main
     case MStart => 5
     case MRecv => 4
     case MCheckConn => 3
     case MSpawnIdle => 2
     case MGive => 1
     case _ => 0) * 8 + HandoverDistance(s.idle) + (if s.idle.IDone? then 0 else if s.idle.IExit? then 1 else 2)
  }

  /** Main's first steps, then an idle thread whose read timeout cannot be set. */
  lemma {:induction false} FailFrom(s: State) returns (more: seq<Action>)
    requires Inv(s)
    requires s.main.MStart? || s.main.MRecv? || s.main.MSpawnIdle? || s.main.MGive? || s.main.MAwait?
          || (s.main.MCheckConn? && s.firstLoop)
    requires s.main.MStart? || s.main.MRecv? ==> s.firstLoop && s.tok.ret != []
    requires s.main.MAwait? ==> IWaits(s.idle) || s.idle.ICheckTimeout? || s.idle.ITimeout? || IGone(s.idle)
    ensures Legal(s, more) && Stuck(After(s, more))
    decreases FailDistance(s)
  {
    if Stuck(s) {
      more := [];
    } else {
      var a := if s.main.MAwait? then StepIdle(Bad) else StepMain(Good);
      StepKeeps(s, a);
      var rest := FailFrom(Apply(s, a));
      more := [a] + rest;
      assert more[1..] == rest;
    }
  }
}
