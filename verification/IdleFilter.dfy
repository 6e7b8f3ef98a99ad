/**
 Suppressing idle events while the client's own commands are under way: a counter of
 outstanding commands per event kind, and one delayed refresh when it returns to zero.

 The event loop, the scheduler's command channel, its timers and the event channel are
 separate, so a timer may fire before or after the cancel that was meant for it.
 */
module IdleFilter {

  datatype IdleEvent =
    | Player | Mixer | Playlist | Options | Database | Update | StoredPlaylist
    | Output | Partition | Sticker | Subscription | Message | Neighbor | Mount

  datatype AppEvent =
    | IgnoreIdle(ev: IdleEvent)
    | UnIgnoreIdle(ev: IdleEvent)
    | ReconcileIdle(ev: IdleEvent)
    | IdleOf(ev: IdleEvent)

  datatype SchedulerCommand = AddJob(ev: IdleEvent) | CancelJob(ev: IdleEvent)

  /** What handling one event causes outside the two maps. */
  datatype Effect = Nothing | Refresh(ev: IdleEvent) | Suppress(ev: IdleEvent) | Schedule(cmd: SchedulerCommand)

  /** `events_to_ignore` and `reconcile_pending`; a kind without an entry has the default. */
  datatype Loop = Loop(ignored: map<IdleEvent, nat>, pending: set<IdleEvent>) {
    function Count(ev: IdleEvent): nat {
      if ev in ignored then ignored[ev] else 0
    }
  }

  predicate CanHandle(l: Loop, e: AppEvent) {
    e.UnIgnoreIdle? ==> l.Count(e.ev) > 0
  }

  /** One turn of the loop; the subtraction must not underflow. */
  function Handle(l: Loop, e: AppEvent): (Loop, Effect)
    requires CanHandle(l, e)
  {
    match e
    case IgnoreIdle(ev) =>
      var counted := l.(ignored := l.ignored[ev := l.Count(ev) + 1]);
      if ev in l.pending then (counted.(pending := l.pending - {ev}), Schedule(CancelJob(ev)))
      else (counted, Nothing)
    case UnIgnoreIdle(ev) =>
      var counted := l.(ignored := l.ignored[ev := l.Count(ev) - 1]);
      if counted.Count(ev) == 0 then (counted.(pending := l.pending + {ev}), Schedule(AddJob(ev)))
      else (counted, Nothing)
    case ReconcileIdle(ev) => (l.(pending := l.pending - {ev}), Refresh(ev))
    case IdleOf(ev) => if l.Count(ev) > 0 || ev in l.pending then (l, Suppress(ev)) else (l, Refresh(ev))
  }

  /** The loop's two maps, updated in place. */
  class EventLoop {
    var ignored: map<IdleEvent, nat>
    var pending: set<IdleEvent>

    constructor ()
      ensures Value() == Loop(map[], {})
    {
      ignored := map[];
      pending := {};
    }

    function Value(): Loop
      reads this
    {
      Loop(ignored, pending)
    }

    method OnEvent(e: AppEvent) returns (effect: Effect)
      requires CanHandle(Value(), e)
      modifies this
      ensures (Value(), effect) == Handle(old(Value()), e)
    {
      effect := Nothing;
      var count := if e.ev in ignored then ignored[e.ev] else 0;
      match e
      case IgnoreIdle(ev) =>
        ignored := ignored[ev := count + 1];
        if ev in pending {
          effect := Schedule(CancelJob(ev));
          pending := pending - {ev};
        }
      case UnIgnoreIdle(ev) =>
        ignored := ignored[ev := count - 1];
        if ignored[ev] == 0 {
          pending := pending + {ev};
          effect := Schedule(AddJob(ev));
        }
      case ReconcileIdle(ev) =>
        pending := pending - {ev};
        effect := Refresh(ev);
      case IdleOf(ev) =>
        effect := if count > 0 || ev in pending then Suppress(ev) else Refresh(ev);
    }
  }

  /** The loop can take all these events one after the other. */
  predicate CanHandleAll(l: Loop, events: seq<AppEvent>)
    decreases events
  {
    events != [] ==> CanHandle(l, events[0]) && CanHandleAll(Handle(l, events[0]).0, events[1..])
  }

  function HandleAll(l: Loop, events: seq<AppEvent>): (Loop, seq<Effect>)
    requires CanHandleAll(l, events)
    decreases events
  {
    if events == [] then (l, [])
    else
      var (next, effect) := Handle(l, events[0]);
      var (end, effects) := HandleAll(next, events[1..]);
      (end, [effect] + effects)
  }

  /** The loop of `main_task` on the events received. */
  method MainTask(loop: EventLoop, events: seq<AppEvent>) returns (effects: seq<Effect>)
    requires CanHandleAll(loop.Value(), events)
    modifies loop
    ensures (loop.Value(), effects) == HandleAll(old(loop.Value()), events)
  {
    effects := [];
    assert events[0..] == events && effects + HandleAll(loop.Value(), events).1 == HandleAll(loop.Value(), events).1;
    for i := 0 to |events|
      invariant CanHandleAll(loop.Value(), events[i..])
      invariant var rest := HandleAll(loop.Value(), events[i..]);
        (rest.0, effects + rest.1) == HandleAll(old(loop.Value()), events)
    {
      assert events[i..][0] == events[i] && events[i..][1..] == events[i + 1..];
      ghost var rest := HandleAll(loop.Value(), events[i..]).1;
      var effect := loop.OnEvent(events[i]);
      assert effects + rest == effects + [effect] + rest[1..];
      effects := effects + [effect];
    }
    assert events[|events|..] == [] && effects + [] == effects;
  }

  // ---- the whole system

  /** `waiting`: commands sent with an ignore and not yet run; running one sends its un-ignore.
      `dropped`: commands thrown away instead, when the client reconnects (history).
      `missed`: kinds with an event suppressed since their last refresh (history). */
  datatype State = State(
    loop: Loop,
    inbox: seq<AppEvent>,
    commands: seq<SchedulerCommand>,
    timers: set<IdleEvent>,
    waiting: map<IdleEvent, nat>,
    dropped: map<IdleEvent, nat>,
    missed: set<IdleEvent>)

  const INIT := State(Loop(map[], {}), [], [], {}, map[], map[], {})

  datatype Action =
    | SendCommand(ev: IdleEvent)
    | RunCommand(ev: IdleEvent)
    | DropCommand(ev: IdleEvent)
    | SendIdle(ev: IdleEvent)
    | Turn
    | RunScheduler
    | Fire(ev: IdleEvent)

  function Amount(m: map<IdleEvent, nat>, ev: IdleEvent): nat {
    if ev in m then m[ev] else 0
  }

  predicate Enabled(s: State, a: Action) {
    match a
    case RunCommand(ev) => Amount(s.waiting, ev) > 0
    case DropCommand(ev) => Amount(s.waiting, ev) > 0
    case Turn => s.inbox != [] && CanHandle(s.loop, s.inbox[0])
    case RunScheduler => s.commands != []
    case Fire(ev) => ev in s.timers
    case _ => true
  }

  function Apply(s: State, a: Action): State
    requires Enabled(s, a)
  {
    match a
    case SendCommand(ev) =>
      s.(inbox := s.inbox + [IgnoreIdle(ev)], waiting := s.waiting[ev := Amount(s.waiting, ev) + 1])
    case RunCommand(ev) =>
      s.(inbox := s.inbox + [UnIgnoreIdle(ev)], waiting := s.waiting[ev := Amount(s.waiting, ev) - 1])
    case DropCommand(ev) =>
      s.(waiting := s.waiting[ev := Amount(s.waiting, ev) - 1], dropped := s.dropped[ev := Amount(s.dropped, ev) + 1])
    case SendIdle(ev) => s.(inbox := s.inbox + [IdleOf(ev)])
    case Turn => TakeTurn(s)
    case RunScheduler =>
      s.(commands := s.commands[1..],
         timers := if s.commands[0].AddJob? then s.timers + {s.commands[0].ev} else s.timers - {s.commands[0].ev})
    case Fire(ev) => s.(timers := s.timers - {ev}, inbox := s.inbox + [ReconcileIdle(ev)])
  }

  function TakeTurn(s: State): State
    requires s.inbox != [] && CanHandle(s.loop, s.inbox[0])
  {
    var (l, effect) := Handle(s.loop, s.inbox[0]);
    var t := s.(loop := l, inbox := s.inbox[1..]);
    match effect
    case Nothing => t
    case Refresh(ev) => t.(missed := s.missed - {ev})
    case Suppress(ev) => t.(missed := s.missed + {ev})
    case Schedule(cmd) => t.(commands := s.commands + [cmd])
  }

  predicate Legal(s: State, acts: seq<Action>)
    decreases |acts|
  {
    acts != [] ==> Enabled(s, acts[0]) && Legal(Apply(s, acts[0]), acts[1..])
  }

  function After(s: State, acts: seq<Action>): State
    requires Legal(s, acts)
    decreases |acts|
  {
    if acts == [] then s else After(Apply(s, acts[0]), acts[1..])
  }

  // ---- invariant, one kind at a time

  /** What the counter of `ev` will be after the inbox, going no lower than zero on the way. */
  function Settled(count: int, inbox: seq<AppEvent>, ev: IdleEvent): int
    decreases inbox
  {
    if inbox == [] then count else Settled(Counted(count, inbox[0], ev), inbox[1..], ev)
  }

  predicate NeverBelow(count: int, inbox: seq<AppEvent>, ev: IdleEvent)
    decreases inbox
  {
    count >= 0 && (inbox != [] ==> NeverBelow(Counted(count, inbox[0], ev), inbox[1..], ev))
  }

  function Counted(count: int, e: AppEvent, ev: IdleEvent): int {
    if e == IgnoreIdle(ev) then count + 1 else if e == UnIgnoreIdle(ev) then count - 1 else count
  }

  /** What the scheduler's channel will leave of the timer of `ev`. */
  function TimerAfter(live: bool, commands: seq<SchedulerCommand>, ev: IdleEvent): bool
    decreases commands
  {
    if commands == [] then live
    else TimerAfter(if commands[0].ev == ev then commands[0].AddJob? else live, commands[1..], ev)
  }

  /** A refresh of `ev` is under way: its job will be in the scheduler, or has already fired. */
  predicate Armed(s: State, ev: IdleEvent) {
    TimerAfter(ev in s.timers, s.commands, ev) || ReconcileIdle(ev) in s.inbox
  }

  predicate Inv(s: State, ev: IdleEvent) {
    && (ev in s.missed ==> s.loop.Count(ev) > 0 || ev in s.loop.pending)
    && (ev in s.loop.pending ==> s.loop.Count(ev) == 0 && Armed(s, ev))
    && NeverBelow(s.loop.Count(ev), s.inbox, ev)
    && Settled(s.loop.Count(ev), s.inbox, ev) == Amount(s.waiting, ev) + Amount(s.dropped, ev)
  }

  lemma {:induction false} InboxAppend(count: int, inbox: seq<AppEvent>, e: AppEvent, ev: IdleEvent)
    requires NeverBelow(count, inbox, ev) && Counted(Settled(count, inbox, ev), e, ev) >= 0
    ensures NeverBelow(count, inbox + [e], ev)
    ensures Settled(count, inbox + [e], ev) == Counted(Settled(count, inbox, ev), e, ev)
    decreases inbox
  {
    if inbox == [] {
      assert inbox + [e] == [e] && [e][1..] == [];
    } else {
      InboxAppend(Counted(count, inbox[0], ev), inbox[1..], e, ev);
      assert (inbox + [e])[1..] == inbox[1..] + [e];
    }
  }

  lemma {:induction false} CommandAppend(live: bool, commands: seq<SchedulerCommand>, cmd: SchedulerCommand, ev: IdleEvent)
    ensures TimerAfter(live, commands + [cmd], ev)
         == if cmd.ev == ev then cmd.AddJob? else TimerAfter(live, commands, ev)
    decreases commands
  {
    if commands == [] {
      assert commands + [cmd] == [cmd] && [cmd][1..] == [];
    } else {
      CommandAppend(if commands[0].ev == ev then commands[0].AddJob? else live, commands[1..], cmd, ev);
      assert (commands + [cmd])[1..] == commands[1..] + [cmd];
    }
  }

  lemma SendKeeps(s: State, a: Action, ev: IdleEvent)
    requires Inv(s, ev) && Enabled(s, a) && (a.SendCommand? || a.RunCommand? || a.SendIdle?)
    ensures Inv(Apply(s, a), ev)
  {
    var e := Sent(a);
    assert Apply(s, a).inbox == s.inbox + [e];
    InboxAppend(s.loop.Count(ev), s.inbox, e, ev);
  }

  /** What an action puts into the event channel. */
  function Sent(a: Action): AppEvent
    requires a.SendCommand? || a.RunCommand? || a.SendIdle? || a.Fire?
  {
    match a
    case SendCommand(ev) => IgnoreIdle(ev)
    case RunCommand(ev) => UnIgnoreIdle(ev)
    case SendIdle(ev) => IdleOf(ev)
    case Fire(ev) => ReconcileIdle(ev)
  }

  lemma DropKeeps(s: State, dropped: IdleEvent, ev: IdleEvent)
    requires Inv(s, ev) && Enabled(s, DropCommand(dropped))
    ensures Inv(Apply(s, DropCommand(dropped)), ev)
  {
  }

  lemma TurnKeeps(s: State, ev: IdleEvent)
    requires Inv(s, ev) && Enabled(s, Turn)
    ensures Inv(TakeTurn(s), ev)
  {
    var e := s.inbox[0];
    CountAfter(s.loop, e, ev);
    assert ReconcileIdle(ev) in s.inbox ==> e == ReconcileIdle(ev) || ReconcileIdle(ev) in s.inbox[1..];
    if e.IgnoreIdle? { IgnoreKeeps(s, ev); }
    else if e.UnIgnoreIdle? { UnIgnoreKeeps(s, ev); }
    else { OtherTurnKeeps(s, ev); }
  }

  lemma CountAfter(l: Loop, e: AppEvent, ev: IdleEvent)
    requires CanHandle(l, e)
    ensures Handle(l, e).0.Count(ev) == Counted(l.Count(ev), e, ev)
  {
  }

  lemma IgnoreKeeps(s: State, ev: IdleEvent)
    requires Inv(s, ev) && Enabled(s, Turn) && s.inbox[0].IgnoreIdle?
    requires ReconcileIdle(ev) in s.inbox ==> ReconcileIdle(ev) in s.inbox[1..]
    ensures Inv(TakeTurn(s), ev)
  {
    CountAfter(s.loop, s.inbox[0], ev);
    CommandAppend(ev in s.timers, s.commands, CancelJob(s.inbox[0].ev), ev);
  }

  lemma UnIgnoreKeeps(s: State, ev: IdleEvent)
    requires Inv(s, ev) && Enabled(s, Turn) && s.inbox[0].UnIgnoreIdle?
    requires ReconcileIdle(ev) in s.inbox ==> ReconcileIdle(ev) in s.inbox[1..]
    ensures Inv(TakeTurn(s), ev)
  {
    CountAfter(s.loop, s.inbox[0], ev);
    CommandAppend(ev in s.timers, s.commands, AddJob(s.inbox[0].ev), ev);
  }

  lemma OtherTurnKeeps(s: State, ev: IdleEvent)
    requires Inv(s, ev) && Enabled(s, Turn) && (s.inbox[0].ReconcileIdle? || s.inbox[0].IdleOf?)
    requires ReconcileIdle(ev) in s.inbox ==> s.inbox[0] == ReconcileIdle(ev) || ReconcileIdle(ev) in s.inbox[1..]
    ensures Inv(TakeTurn(s), ev)
  {
    CountAfter(s.loop, s.inbox[0], ev);
  }

  lemma SchedulerKeeps(s: State, a: Action, ev: IdleEvent)
    requires Inv(s, ev) && Enabled(s, a) && (a.RunScheduler? || a.Fire?)
    ensures Inv(Apply(s, a), ev)
  {
    if a.Fire? {
      InboxAppend(s.loop.Count(ev), s.inbox, ReconcileIdle(a.ev), ev);
      assert Apply(s, a).inbox[|s.inbox|] == ReconcileIdle(a.ev);
      assert forall e | e in s.inbox :: e in Apply(s, a).inbox;
    }
  }

  lemma StepKeeps(s: State, a: Action, ev: IdleEvent)
    requires Inv(s, ev) && Enabled(s, a)
    ensures Inv(Apply(s, a), ev)
  {
    match a
    case Turn => TurnKeeps(s, ev);
    case RunScheduler => SchedulerKeeps(s, a, ev);
    case Fire(_) => SchedulerKeeps(s, a, ev);
    case DropCommand(dropped) => DropKeeps(s, dropped, ev);
    case _ => SendKeeps(s, a, ev);
  }

  lemma {:induction false} RunKeeps(s: State, acts: seq<Action>, ev: IdleEvent)
    requires Inv(s, ev) && Legal(s, acts)
    ensures Inv(After(s, acts), ev)
    decreases |acts|
  {
    if acts != [] {
      StepKeeps(s, acts[0], ev);
      RunKeeps(Apply(s, acts[0]), acts[1..], ev);
    }
  }

  // ---- main results

  /** The counter never underflows: the loop can take all events it has been sent. */
  lemma NeverUnderflows(acts: seq<Action>)
    requires Legal(INIT, acts)
    ensures CanHandleAll(After(INIT, acts).loop, After(INIT, acts).inbox)
  {
    var s := After(INIT, acts);
    forall ev ensures NeverBelow(s.loop.Count(ev), s.inbox, ev) { RunKeeps(INIT, acts, ev); }
    AllSafe(s.loop, s.inbox);
  }

  lemma {:induction false} AllSafe(l: Loop, inbox: seq<AppEvent>)
    requires forall ev :: NeverBelow(l.Count(ev), inbox, ev)
    ensures CanHandleAll(l, inbox)
    decreases inbox
  {
    if inbox != [] {
      var e := inbox[0];
      assert NeverBelow(Counted(l.Count(e.ev), e, e.ev), inbox[1..], e.ev);
      var next := Handle(l, e).0;
      forall ev ensures NeverBelow(next.Count(ev), inbox[1..], ev) {
        assert next.Count(ev) == Counted(l.Count(ev), e, ev);
      }
      AllSafe(next, inbox[1..]);
    }
  }

  lemma HeadIsSafe(s: State)
    requires s.inbox != [] && Inv(s, s.inbox[0].ev)
    ensures Enabled(s, Turn)
  {
    var ev := s.inbox[0].ev;
    assert NeverBelow(Counted(s.loop.Count(ev), s.inbox[0], ev), s.inbox[1..], ev);
  }

  /** A kind with a suppressed event is still being ignored, or a refresh of it is under way. */
  lemma SuppressedIsRemembered(acts: seq<Action>, ev: IdleEvent)
    requires Legal(INIT, acts)
    ensures var s := After(INIT, acts);
      ev in s.missed ==> s.loop.Count(ev) > 0 || (ev in s.loop.pending && Armed(s, ev))
  {
    RunKeeps(INIT, acts, ev);
  }

  // ---- what a dropped command does

  function Turns(acts: seq<Action>): nat {
    if acts == [] then 0 else (if acts[0].Turn? then 1 else 0) + Turns(acts[1..])
  }

  /** The next event of the loop is one of MPD's, and it is acted upon. */
  predicate ActsOn(s: State, ev: IdleEvent) {
    s.inbox != [] && s.inbox[0] == IdleOf(ev) && Handle(s.loop, s.inbox[0]).1 == Refresh(ev)
  }

  /** Some event of the kind that MPD sends from now on can still be acted upon. */
  ghost predicate StillHeard(s: State, ev: IdleEvent) {
    exists more :: Legal(s, more) && Turns(more) >= |s.inbox| && ActsOn(After(s, more), ev)
  }

  /** Behind the first `seen` events of the inbox the counter never goes below `d`. */
  predicate HeldDown(s: State, ev: IdleEvent, d: nat, seen: nat) {
    && seen <= |s.inbox| && d <= Amount(s.dropped, ev)
    && NeverBelow(Settled(s.loop.Count(ev), s.inbox[..seen], ev) - d, s.inbox[seen..], ev)
  }

  lemma {:induction false} SettledConcat(count: int, a: seq<AppEvent>, b: seq<AppEvent>, ev: IdleEvent)
    ensures Settled(count, a + b, ev) == Settled(Settled(count, a, ev), b, ev)
    decreases a
  {
    if a == [] {
      assert a + b == b;
    } else {
      SettledConcat(Counted(count, a[0], ev), a[1..], b, ev);
      assert (a + b)[1..] == a[1..] + b;
    }
  }

  lemma {:induction false} SettledShift(count: int, d: int, inbox: seq<AppEvent>, ev: IdleEvent)
    ensures Settled(count - d, inbox, ev) == Settled(count, inbox, ev) - d
    decreases inbox
  {
    if inbox != [] {
      SettledShift(Counted(count, inbox[0], ev), d, inbox[1..], ev);
    }
  }

  lemma AppendHolds(s: State, a: Action, ev: IdleEvent, d: nat, seen: nat)
    requires Inv(s, ev) && HeldDown(s, ev, d, seen) && Enabled(s, a)
    requires a.SendCommand? || a.RunCommand? || a.SendIdle? || a.Fire?
    ensures HeldDown(Apply(s, a), ev, d, seen)
  {
    SendAppends(s, a, ev);
    AppendAbove(s.loop.Count(ev), s.inbox, Sent(a), ev, d, seen);
  }

  lemma SendAppends(s: State, a: Action, ev: IdleEvent)
    requires Enabled(s, a) && (a.SendCommand? || a.RunCommand? || a.SendIdle? || a.Fire?)
    requires Inv(s, ev)
    ensures var t := Apply(s, a);
      && t.inbox == s.inbox + [Sent(a)] && t.loop == s.loop && t.dropped == s.dropped
      && Counted(Settled(s.loop.Count(ev), s.inbox, ev), Sent(a), ev) >= Amount(s.dropped, ev)
  {
  }

  lemma AppendAbove(count: nat, inbox: seq<AppEvent>, e: AppEvent, ev: IdleEvent, d: nat, seen: nat)
    requires seen <= |inbox| && NeverBelow(Settled(count, inbox[..seen], ev) - d, inbox[seen..], ev)
    requires Counted(Settled(count, inbox, ev), e, ev) >= d
    ensures NeverBelow(Settled(count, (inbox + [e])[..seen], ev) - d, (inbox + [e])[seen..], ev)
  {
    var first, later := inbox[..seen], inbox[seen..];
    assert inbox == first + later;
    SettledConcat(count, first, later, ev);
    SettledShift(Settled(count, first, ev), d, later, ev);
    InboxAppend(Settled(count, first, ev) - d, later, e, ev);
    assert (inbox + [e])[..seen] == first && (inbox + [e])[seen..] == later + [e];
  }

  lemma TurnCounts(s: State, ev: IdleEvent)
    requires Enabled(s, Turn)
    ensures var t := TakeTurn(s);
      t.inbox == s.inbox[1..] && t.dropped == s.dropped && t.loop.Count(ev) == Counted(s.loop.Count(ev), s.inbox[0], ev)
  {
    CountAfter(s.loop, s.inbox[0], ev);
    TurnTakes(s);
  }

  lemma TurnTakes(s: State)
    requires Enabled(s, Turn)
    ensures var t := TakeTurn(s);
      t.inbox == s.inbox[1..] && t.dropped == s.dropped && t.loop == Handle(s.loop, s.inbox[0]).0
  {
  }

  lemma TurnHolds(s: State, ev: IdleEvent, d: nat, seen: nat)
    requires HeldDown(s, ev, d, seen) && Enabled(s, Turn)
    ensures HeldDown(TakeTurn(s), ev, d, if seen > 0 then seen - 1 else 0)
  {
    var count, inbox := s.loop.Count(ev), s.inbox;
    var counted := Counted(count, inbox[0], ev);
    TurnCounts(s, ev);
    if seen > 0 {
      assert inbox[..seen][0] == inbox[0] && inbox[..seen][1..] == inbox[1..][..seen - 1];
      assert inbox[seen..] == inbox[1..][seen - 1..];
      assert Settled(count, inbox[..seen], ev) == Settled(counted, inbox[1..][..seen - 1], ev);
    } else {
      assert inbox[0..] == inbox && inbox[1..][0..] == inbox[1..];
      assert Settled(count, inbox[..0], ev) == count && Settled(counted, inbox[1..][..0], ev) == counted;
      assert NeverBelow(Counted(count - d, inbox[0], ev), inbox[1..], ev);
    }
  }

  lemma {:induction false} HeldAlong(s: State, acts: seq<Action>, ev: IdleEvent, d: nat, seen: nat)
    requires Inv(s, ev) && HeldDown(s, ev, d, seen) && Legal(s, acts) && Turns(acts) >= seen && d > 0
    ensures !ActsOn(After(s, acts), ev)
    decreases |acts|
  {
    if acts == [] {
      assert s.inbox[..0] == [];
    } else {
      var a := acts[0];
      StepKeeps(s, a, ev);
      match a {
        case Turn => TurnHolds(s, ev, d, seen);
        case RunScheduler =>
        case DropCommand(_) =>
        case _ => AppendHolds(s, a, ev, d, seen);
      }
      HeldAlong(Apply(s, a), acts[1..], ev, d, if a.Turn? && seen > 0 then seen - 1 else seen);
    }
  }

  /** Over all runs: MPD's events of a kind can still be acted upon if and only if no command
      that was to ignore the kind for a while has been dropped. */
  lemma SuppressedForGoodExactly(acts: seq<Action>, ev: IdleEvent)
    requires Legal(INIT, acts)
    ensures StillHeard(After(INIT, acts), ev) <==> Amount(After(INIT, acts).dropped, ev) == 0
  {
    var s := After(INIT, acts);
    forall e { RunKeeps(INIT, acts, e); }
    if Amount(s.dropped, ev) == 0 {
      var more := Drain(s, ev);
      HeardAfter(s, more, ev);
    } else {
      assert s.inbox[..|s.inbox|] == s.inbox && s.inbox[|s.inbox|..] == [];
      forall more | Legal(s, more) && Turns(more) >= |s.inbox| ensures !ActsOn(After(s, more), ev) {
        HeldAlong(s, more, ev, Amount(s.dropped, ev), |s.inbox|);
      }
    }
  }

  /** It takes one reconnect between a command's ignore and the command. */
  lemma DropSilences(ev: IdleEvent) returns (acts: seq<Action>)
    ensures Legal(INIT, acts) && !StillHeard(After(INIT, acts), ev)
  {
    acts := [SendCommand(ev), DropCommand(ev)];
    var s := Apply(INIT, SendCommand(ev));
    assert acts[1..] == [DropCommand(ev)] && acts[1..][1..] == [];
    assert After(INIT, acts) == Apply(s, DropCommand(ev)) by {
      assert After(s, [DropCommand(ev)]) == After(Apply(s, DropCommand(ev)), [DropCommand(ev)][1..]);
    }
    SuppressedForGoodExactly(acts, ev);
  }

  lemma {:induction false} TurnsTaken(s: State, acts: seq<Action>)
    requires Legal(s, acts)
    ensures |After(s, acts).inbox| >= |s.inbox| - Turns(acts)
    decreases |acts|
  {
    if acts != [] { TurnsTaken(Apply(s, acts[0]), acts[1..]); }
  }

  lemma {:induction false} OneMore(s: State, acts: seq<Action>, a: Action)
    requires Legal(s, acts) && Enabled(After(s, acts), a)
    ensures Legal(s, acts + [a]) && After(s, acts + [a]) == Apply(After(s, acts), a)
    ensures Turns(acts + [a]) >= Turns(acts)
    decreases |acts|
  {
    if acts == [] {
      assert acts + [a] == [a] && [a][1..] == [];
    } else {
      OneMore(Apply(s, acts[0]), acts[1..], a);
      assert (acts + [a])[1..] == acts[1..] + [a];
    }
  }

  lemma HeardAfter(s: State, more: seq<Action>, ev: IdleEvent)
    requires Legal(s, more) && Quiet(After(s, more), ev)
    ensures StillHeard(s, ev)
  {
    TurnsTaken(s, more);
    OneMore(s, more, SendIdle(ev));
    assert ActsOn(After(s, more + [SendIdle(ev)]), ev);
  }

  // ---- the refresh

  /** No command, change or event of MPD is added: the client, the loop, the scheduler and the
      timers run on. */
  predicate Internal(acts: seq<Action>) {
    forall a | a in acts :: a.RunCommand? || a.Turn? || a.RunScheduler? || a.Fire?
  }

  /** Nothing about the kind is pending. */
  predicate Quiet(s: State, ev: IdleEvent) {
    s.inbox == [] && s.loop.Count(ev) == 0 && ev !in s.loop.pending && ev !in s.missed
  }

  /** And so a refresh follows: with no command of the kind dropped, the client, the loop, the
      scheduler and the timer alone bring it about. */
  lemma RefreshFollows(acts: seq<Action>, ev: IdleEvent) returns (more: seq<Action>)
    requires Legal(INIT, acts) && Amount(After(INIT, acts).dropped, ev) == 0
    ensures Legal(After(INIT, acts), more) && Internal(more)
    ensures ev !in After(After(INIT, acts), more).missed
  {
    forall e { RunKeeps(INIT, acts, e); }
    more := Drain(After(INIT, acts), ev);
  }

  /** Run every command of the kind, take every event, tell the scheduler, fire the timer, take
      its event. */
  lemma {:induction false} Drain(s: State, ev: IdleEvent) returns (more: seq<Action>)
    requires forall e :: Inv(s, e)
    requires Amount(s.dropped, ev) == 0
    ensures Legal(s, more) && Internal(more) && Quiet(After(s, more), ev)
    decreases Amount(s.waiting, ev), |s.inbox|, |s.commands|
  {
    var w := Amount(s.waiting, ev);
    if w > 0 || s.inbox != [] || s.commands != [] {
      var a := if w > 0 then RunCommand(ev) else if s.inbox != [] then Turn else RunScheduler;
      if a.Turn? { HeadIsSafe(s); TurnTakes(s); }
      forall e ensures Inv(Apply(s, a), e) { StepKeeps(s, a, e); }
      var rest := Drain(Apply(s, a), ev);
      more := [a] + rest;
      assert more[1..] == rest;
    } else if ev in s.loop.pending {
      assert Inv(s, ev) && ev in s.timers;
      var t := Apply(s, Fire(ev));
      more := [Fire(ev), Turn];
      assert more[1..] == [Turn] && [Turn][1..] == [];
      assert t.inbox == [ReconcileIdle(ev)];
      assert After(t, [Turn]) == TakeTurn(t);
    } else {
      more := [];
      assert Inv(s, ev);
    }
  }
}
