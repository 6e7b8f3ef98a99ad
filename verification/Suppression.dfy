/**
 Which idle events the event loop acts upon, told from the history of what it has handled: the
 ignores, the un-ignores and the reconciles of the kind.
 */
module Suppression {
  import opened IdleFilter

  const START := Loop(map[], {})

  function Times(events: seq<AppEvent>, e: AppEvent): nat {
    multiset(events)[e]
  }

  /** Ignores of the kind that have not been taken back. */
  function Outstanding(events: seq<AppEvent>, ev: IdleEvent): int {
    Times(events, IgnoreIdle(ev)) - Times(events, UnIgnoreIdle(ev))
  }

  /** The last ignore of the kind has been taken back, and behind that un-ignore there has been
      neither an ignore nor the reconcile. */
  predicate AwaitsReconcile(events: seq<AppEvent>, ev: IdleEvent) {
    exists i | 0 <= i < |events| :: TakenBackAt(events, i, ev)
  }

  predicate TakenBackAt(events: seq<AppEvent>, i: nat, ev: IdleEvent)
    requires i < |events|
  {
    && events[i] == UnIgnoreIdle(ev) && Outstanding(events[..i + 1], ev) == 0
    && LeftAlone(events[i + 1..], ev)
  }

  predicate LeftAlone(events: seq<AppEvent>, ev: IdleEvent) {
    IgnoreIdle(ev) !in events && ReconcileIdle(ev) !in events
  }

  lemma {:induction false} HandleAppend(l: Loop, events: seq<AppEvent>, e: AppEvent)
    requires CanHandleAll(l, events + [e])
    ensures CanHandleAll(l, events) && CanHandle(HandleAll(l, events).0, e)
    ensures var (next, effect) := Handle(HandleAll(l, events).0, e);
      HandleAll(l, events + [e]) == (next, HandleAll(l, events).1 + [effect])
    decreases events
  {
    if events == [] {
      var one := [e];
      var (next, effect) := Handle(l, e);
      assert events + [e] == one && one[1..] == [] && HandleAll(next, one[1..]) == (next, []);
      assert HandleAll(l, one) == (next, [effect] + []);
      assert [effect] + [] == [] + [effect];
    } else {
      var all := events + [e];
      var (next, effect) := Handle(l, all[0]);
      assert all[1..] == events[1..] + [e];
      assert CanHandleAll(next, all[1..]);
      HandleAppend(next, events[1..], e);
      var (end, last) := Handle(HandleAll(next, events[1..]).0, e);
      var effects := HandleAll(next, events[1..]).1;
      assert HandleAll(l, all) == (end, [effect] + (effects + [last]));
      assert [effect] + (effects + [last]) == [effect] + effects + [last];
    }
  }

  lemma OutstandingAppend(events: seq<AppEvent>, e: AppEvent, ev: IdleEvent)
    ensures Outstanding(events + [e], ev) == Counted(Outstanding(events, ev), e, ev)
  {
  }

  lemma TakenBackStays(events: seq<AppEvent>, e: AppEvent, i: nat, ev: IdleEvent)
    requires i < |events|
    ensures TakenBackAt(events + [e], i, ev) <==> TakenBackAt(events, i, ev) && LeftAlone([e], ev)
  {
    assert (events + [e])[..i + 1] == events[..i + 1];
    assert (events + [e])[i + 1..] == events[i + 1..] + [e];
  }

  lemma TakenBackLast(events: seq<AppEvent>, e: AppEvent, ev: IdleEvent)
    ensures TakenBackAt(events + [e], |events|, ev) <==> e == UnIgnoreIdle(ev) && Outstanding(events + [e], ev) == 0
  {
    assert (events + [e])[..|events| + 1] == events + [e];
  }

  lemma AwaitsAppend(events: seq<AppEvent>, e: AppEvent, ev: IdleEvent)
    ensures AwaitsReconcile(events + [e], ev) <==>
      || (e == UnIgnoreIdle(ev) && Outstanding(events + [e], ev) == 0)
      || (AwaitsReconcile(events, ev) && LeftAlone([e], ev))
  {
    TakenBackLast(events, e, ev);
    forall i | 0 <= i < |events|
      ensures TakenBackAt(events + [e], i, ev) <==> TakenBackAt(events, i, ev) && LeftAlone([e], ev)
    {
      TakenBackStays(events, e, i, ev);
    }
  }

  /** The loop's two maps agree with the history of one kind. */
  predicate Agrees(l: Loop, events: seq<AppEvent>, ev: IdleEvent) {
    && l.Count(ev) == Outstanding(events, ev)
    && (ev in l.pending <==> AwaitsReconcile(events, ev))
    && (ev in l.pending ==> l.Count(ev) == 0)
  }

  lemma AgreesAppend(l: Loop, events: seq<AppEvent>, e: AppEvent, ev: IdleEvent)
    requires Agrees(l, events, ev) && CanHandle(l, e)
    ensures Agrees(Handle(l, e).0, events + [e], ev)
  {
    OutstandingAppend(events, e, ev);
    AwaitsAppend(events, e, ev);
    CountAfter(l, e, ev);
  }

  lemma {:induction false} MapsAreHistory(events: seq<AppEvent>, ev: IdleEvent)
    requires CanHandleAll(START, events)
    ensures Agrees(HandleAll(START, events).0, events, ev)
    decreases |events|
  {
    if events != [] {
      var before, e := events[..|events| - 1], events[|events| - 1];
      assert events == before + [e];
      HandleAppend(START, before, e);
      MapsAreHistory(before, ev);
      AgreesAppend(HandleAll(START, before).0, before, e, ev);
    }
  }

  // ---- over all runs

  /** The events the loop takes along a run. */
  function HandledAlong(s: State, acts: seq<Action>): seq<AppEvent>
    requires Legal(s, acts)
    decreases |acts|
  {
    if acts == [] then []
    else (if acts[0].Turn? then [s.inbox[0]] else []) + HandledAlong(Apply(s, acts[0]), acts[1..])
  }

  lemma {:induction false} LoopAlong(s: State, acts: seq<Action>)
    requires Legal(s, acts)
    ensures CanHandleAll(s.loop, HandledAlong(s, acts))
    ensures After(s, acts).loop == HandleAll(s.loop, HandledAlong(s, acts)).0
    decreases |acts|
  {
    if acts != [] {
      var next := Apply(s, acts[0]);
      var rest := HandledAlong(next, acts[1..]);
      LoopAlong(next, acts[1..]);
      if acts[0].Turn? {
        TurnTakes(s);
        assert ([s.inbox[0]] + rest)[1..] == rest;
      } else {
        assert [] + rest == rest;
      }
    }
  }

  /** In every run, MPD's event is acted upon if and only if no ignore of its kind is outstanding
      and no un-ignore of it awaits its reconcile; otherwise it is suppressed. */
  lemma ActedUponExactly(acts: seq<Action>, ev: IdleEvent)
    requires Legal(INIT, acts) && After(INIT, acts).inbox != [] && After(INIT, acts).inbox[0] == IdleOf(ev)
    ensures var past := HandledAlong(INIT, acts);
      Handle(After(INIT, acts).loop, IdleOf(ev))
        == (After(INIT, acts).loop,
            if Outstanding(past, ev) == 0 && !AwaitsReconcile(past, ev) then Refresh(ev) else Suppress(ev))
  {
    LoopAlong(INIT, acts);
    MapsAreHistory(HandledAlong(INIT, acts), ev);
  }

  // ---- one refresh per batch of own commands

  /** Events that do not end the suppression: of other kinds, or MPD's own of this one. */
  predicate LeavesPending(events: seq<AppEvent>, ev: IdleEvent) {
    forall e | e in events :: e.ev == ev ==> e.IdleOf?
  }

  lemma {:induction false} PendingAlong(l: Loop, events: seq<AppEvent>, ev: IdleEvent)
    requires CanHandleAll(l, events) && LeavesPending(events, ev) && ev in l.pending && l.Count(ev) == 0
    ensures Refresh(ev) !in HandleAll(l, events).1
    ensures ev in HandleAll(l, events).0.pending && HandleAll(l, events).0.Count(ev) == 0
    decreases events
  {
    if events != [] {
      var next := Handle(l, events[0]).0;
      assert events[0] in events;
      assert ev in next.pending && next.Count(ev) == 0;
      PendingAlong(next, events[1..], ev);
    }
  }

  /** The end of the last own command, any number of MPD's events of the kind, events of other
      kinds in between, and the reconcile: all that is acted upon is the reconcile. */
  lemma OneRefresh(l: Loop, between: seq<AppEvent>, ev: IdleEvent)
    requires l.Count(ev) == 1 && LeavesPending(between, ev)
    requires CanHandleAll(l, [UnIgnoreIdle(ev)] + between + [ReconcileIdle(ev)])
    ensures var effects := HandleAll(l, [UnIgnoreIdle(ev)] + between + [ReconcileIdle(ev)]).1;
      |effects| == |between| + 2 && effects[|between| + 1] == Refresh(ev) && Refresh(ev) !in effects[..|between| + 1]
  {
    var first := [UnIgnoreIdle(ev)] + between;
    HandleAppend(l, first, ReconcileIdle(ev));
    assert first[0] == UnIgnoreIdle(ev) && first[1..] == between;
    var next := Handle(l, UnIgnoreIdle(ev)).0;
    PendingAlong(next, between, ev);
    OneEffectEach(next, between);
    var effects := HandleAll(l, first).1;
    assert effects == [Schedule(AddJob(ev))] + HandleAll(next, between).1;
    assert Refresh(ev) !in effects;
    assert (effects + [Refresh(ev)])[..|between| + 1] == effects;
  }

  lemma {:induction false} OneEffectEach(l: Loop, events: seq<AppEvent>)
    requires CanHandleAll(l, events)
    ensures |HandleAll(l, events).1| == |events|
    decreases events
  {
    if events != [] { OneEffectEach(Handle(l, events[0]).0, events[1..]); }
  }

  // ---- what has been missed

  /** An event of the kind was suppressed and the kind has not been refreshed since. */
  predicate Misses(effects: seq<Effect>, ev: IdleEvent) {
    exists i | 0 <= i < |effects| :: effects[i] == Suppress(ev) && Refresh(ev) !in effects[i + 1..]
  }

  lemma MissesAppend(effects: seq<Effect>, effect: Effect, ev: IdleEvent)
    ensures Misses(effects + [effect], ev) <==>
      effect == Suppress(ev) || (effect != Refresh(ev) && Misses(effects, ev))
  {
    var all := effects + [effect];
    assert all[|effects|] == effect && all[|effects| + 1..] == [];
    forall i | 0 <= i < |effects|
      ensures all[i] == effects[i]
      ensures Refresh(ev) in all[i + 1..] <==> Refresh(ev) in effects[i + 1..] || effect == Refresh(ev)
    {
      assert all[i + 1..] == effects[i + 1..] + [effect];
    }
  }

  /** The effects of the events handled along a run. */
  function EffectsAlong(s: State, acts: seq<Action>): seq<Effect>
    requires Legal(s, acts)
    decreases |acts|
  {
    if acts == [] then []
    else (if acts[0].Turn? then [Handle(s.loop, s.inbox[0]).1] else []) + EffectsAlong(Apply(s, acts[0]), acts[1..])
  }

  lemma TurnMisses(s: State, past: seq<Effect>, ev: IdleEvent)
    requires Enabled(s, Turn) && (ev in s.missed <==> Misses(past, ev))
    ensures ev in TakeTurn(s).missed <==> Misses(past + [Handle(s.loop, s.inbox[0]).1], ev)
  {
    MissesAppend(past, Handle(s.loop, s.inbox[0]).1, ev);
  }

  lemma {:induction false} MissedAlong(s: State, acts: seq<Action>, past: seq<Effect>, ev: IdleEvent)
    requires Legal(s, acts) && (ev in s.missed <==> Misses(past, ev))
    ensures ev in After(s, acts).missed <==> Misses(past + EffectsAlong(s, acts), ev)
    decreases |acts|
  {
    if acts == [] {
      assert past + [] == past;
    } else {
      var a := acts[0];
      var effects := if a.Turn? then [Handle(s.loop, s.inbox[0]).1] else [];
      var rest := EffectsAlong(Apply(s, a), acts[1..]);
      if a.Turn? { TurnMisses(s, past, ev); } else { assert past + [] == past; }
      MissedAlong(Apply(s, a), acts[1..], past + effects, ev);
      assert past + effects + rest == past + (effects + rest);
    }
  }

  /** No suppressed event is lost: in every run, a kind with an event that was suppressed and not
      followed by a refresh is still being ignored, or its refresh is under way. */
  lemma MissedIsRemembered(acts: seq<Action>, ev: IdleEvent)
    requires Legal(INIT, acts) && Misses(EffectsAlong(INIT, acts), ev)
    ensures var s := After(INIT, acts); s.loop.Count(ev) > 0 || (ev in s.loop.pending && Armed(s, ev))
  {
    MissedAlong(INIT, acts, [], ev);
    assert [] + EffectsAlong(INIT, acts) == EffectsAlong(INIT, acts);
    SuppressedIsRemembered(acts, ev);
  }

  lemma {:induction false} Joined(s: State, a: seq<Action>, b: seq<Action>)
    requires Legal(s, a) && Legal(After(s, a), b)
    ensures Legal(s, a + b) && After(s, a + b) == After(After(s, a), b)
    decreases |a|
  {
    if a == [] {
      assert a + b == b;
    } else {
      Joined(Apply(s, a[0]), a[1..], b);
      assert (a + b)[1..] == a[1..] + b;
    }
  }

  /** And the refresh comes: with no command of the kind dropped, the client, the loop, the scheduler
      and the timer alone bring a refresh behind everything that was suppressed. */
  lemma RefreshComes(acts: seq<Action>, ev: IdleEvent) returns (more: seq<Action>)
    requires Legal(INIT, acts) && Amount(After(INIT, acts).dropped, ev) == 0
    ensures Legal(INIT, acts + more) && Internal(more)
    ensures !Misses(EffectsAlong(INIT, acts + more), ev)
  {
    more := RefreshFollows(acts, ev);
    Joined(INIT, acts, more);
    MissedAlong(INIT, acts + more, [], ev);
    assert [] + EffectsAlong(INIT, acts + more) == EffectsAlong(INIT, acts + more);
  }

  // ---- no refresh out of nothing

  /** How often a timer of the kind has fired along a run. */
  function FiresAlong(s: State, acts: seq<Action>, ev: IdleEvent): nat
    requires Legal(s, acts)
    decreases |acts|
  {
    if acts == [] then 0 else (if acts[0] == Fire(ev) then 1 else 0) + FiresAlong(Apply(s, acts[0]), acts[1..], ev)
  }

  /** How often the loop has asked for one. */
  function JobsAlong(s: State, acts: seq<Action>, ev: IdleEvent): nat
    requires Legal(s, acts)
    decreases |acts|
  {
    if acts == [] then 0 else Jobs(s, acts[0], ev) + JobsAlong(Apply(s, acts[0]), acts[1..], ev)
  }

  function Jobs(s: State, a: Action, ev: IdleEvent): nat
    requires Enabled(s, a)
  {
    if a.Turn? && Handle(s.loop, s.inbox[0]).1 == Schedule(AddJob(ev)) then 1 else 0
  }

  /** Timers that can still fire without being asked for again. */
  function Live(s: State, ev: IdleEvent): nat {
    multiset(s.commands)[AddJob(ev)] + if ev in s.timers then 1 else 0
  }

  lemma StepFires(s: State, a: Action, ev: IdleEvent)
    requires Enabled(s, a)
    ensures Live(Apply(s, a), ev) + (if a == Fire(ev) then 1 else 0) <= Live(s, ev) + Jobs(s, a, ev)
  {
    match a
    case RunScheduler => SchedulerFires(s, ev);
    case Turn => TurnAsks(s, ev);
    case _ =>
  }

  lemma SchedulerFires(s: State, ev: IdleEvent)
    requires s.commands != []
    ensures Live(Apply(s, RunScheduler), ev) <= Live(s, ev)
  {
    assert s.commands == [s.commands[0]] + s.commands[1..];
  }

  lemma TurnAsks(s: State, ev: IdleEvent)
    requires Enabled(s, Turn)
    ensures Live(TakeTurn(s), ev) <= Live(s, ev) + Jobs(s, Turn, ev)
  {
    var effect, t := Handle(s.loop, s.inbox[0]).1, TakeTurn(s);
    assert t.timers == s.timers;
    assert t.commands == if effect.Schedule? then s.commands + [effect.cmd] else s.commands;
  }

  lemma {:induction false} FiresBounded(s: State, acts: seq<Action>, ev: IdleEvent)
    requires Legal(s, acts)
    ensures Live(After(s, acts), ev) + FiresAlong(s, acts, ev) <= Live(s, ev) + JobsAlong(s, acts, ev)
    decreases |acts|
  {
    if acts != [] {
      StepFires(s, acts[0], ev);
      FiresBounded(Apply(s, acts[0]), acts[1..], ev);
    }
  }

  /** In every run the timer of a kind fires at most once for each time the last ignore of the kind
      was taken back. */
  lemma OneReconcilePerBatch(acts: seq<Action>, ev: IdleEvent)
    requires Legal(INIT, acts)
    ensures FiresAlong(INIT, acts, ev) <= JobsAlong(INIT, acts, ev)
  {
    FiresBounded(INIT, acts, ev);
  }
}
