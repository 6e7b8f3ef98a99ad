/**
 One connection between a client and MPD, seen as whole lines.

 The server follows the MPD protocol reference, "Querying MPD's status":
 while a client idles only `noidle` is legal; `noidle` outside idle is ignored
 without a reply; an event or a `noidle` ends the idle period with one reply.
 An idle period is numbered by the client that starts it, and a `noidle` carries
 the number of the period it was meant for. The numbers are bookkeeping of the
 model: no branch of the server depends on them.
 */
module Wire {
  import opened Wrappers

  datatype Line = Idle(period: nat) | NoIdle(target: nat) | Command

  datatype Reply = IdleReply(period: nat) | CommandReply

  /** `Fault`: the client sent something illegal and MPD closes the connection. */
  datatype Mode = Ready | Idling(period: nat) | Fault

  /** `inbound`: written by the client, not yet read by the server.
      `outbound`: complete replies the client has not read. */
  datatype Conn = Conn(inbound: seq<Line>, mode: Mode, outbound: seq<Reply>)

  const FRESH_CONN := Conn([], Ready, [])

  /** What the server does with one line. */
  function Handle(c: Conn, line: Line): Conn {
    match (line, c.mode)
    case (_, Fault) => c
    case (NoIdle(_), Idling(p)) => c.(mode := Ready, outbound := c.outbound + [IdleReply(p)])
    case (NoIdle(_), Ready) => c
    case (_, Idling(_)) => c.(mode := Fault)
    case (Idle(p), Ready) => c.(mode := Idling(p))
    case (Command, Ready) => c.(outbound := c.outbound + [CommandReply])
  }

  /** The server takes the next line. */
  function Serve(c: Conn): Conn
    requires c.inbound != []
  {
    Handle(c.(inbound := c.inbound[1..]), c.inbound[0])
  }

  /** A subsystem changes while the client idles. */
  function Notify(c: Conn): Conn
    requires c.mode.Idling?
  {
    c.(mode := Ready, outbound := c.outbound + [IdleReply(c.mode.period)])
  }

  /** The client appends a line. */
  function Write(c: Conn, line: Line): Conn {
    c.(inbound := c.inbound + [line])
  }

  /** The server works through everything already written, with no event. */
  function ServeAll(c: Conn): Conn
    decreases |c.inbound|
  {
    if c.inbound == [] then c else ServeAll(Serve(c))
  }

  /** The lines that are not `noidle`. */
  function Significant(lines: seq<Line>): seq<Line> {
    if lines == [] then []
    else if lines[0].NoIdle? then Significant(lines[1..])
    else [lines[0]] + Significant(lines[1..])
  }

  /** Nothing is in progress: only stray `noidle` lines may be under way. */
  predicate Quiet(c: Conn) {
    Significant(c.inbound) == [] && c.mode == Ready && c.outbound == []
  }

  /** Period `p` has been asked for and its one reply has not been read. */
  predicate IdleExchange(c: Conn, p: nat) {
    || (Significant(c.inbound) == [Idle(p)] && c.mode == Ready && c.outbound == [])
    || (Significant(c.inbound) == [] && c.mode == Idling(p) && c.outbound == [])
    || (Significant(c.inbound) == [] && c.mode == Ready && c.outbound == [IdleReply(p)])
  }

  /** One command has been sent and its reply has not been read. */
  predicate CommandExchange(c: Conn) {
    && c.mode == Ready
    && ((Significant(c.inbound) == [Command] && c.outbound == [])
        || (Significant(c.inbound) == [] && c.outbound == [CommandReply]))
  }

  /** Nothing the server is about to read is illegal. */
  predicate Harmless(c: Conn) {
    && c.mode != Fault
    && |Significant(c.inbound)| <= 1
    && (c.mode.Idling? ==> Significant(c.inbound) == [])
  }

  /** The lines already written make the server answer without any event. */
  predicate Woken(c: Conn) {
    ServeAll(c).outbound != []
  }

  lemma {:induction false} SignificantAppend(lines: seq<Line>, line: Line)
    ensures Significant(lines + [line])
         == Significant(lines) + (if line.NoIdle? then [] else [line])
  {
    if lines == [] {
      assert lines + [line] == [line];
    } else {
      SignificantAppend(lines[1..], line);
      assert (lines + [line])[1..] == lines[1..] + [line];
    }
  }

  /** Serving everything and then one more line is serving the longer stream. */
  lemma {:induction false} ServeAllWrite(c: Conn, line: Line)
    ensures ServeAll(Write(c, line)) == Handle(ServeAll(c), line)
    decreases |c.inbound|
  {
    var w := Write(c, line);
    assert w.inbound[0] == (c.inbound + [line])[0];
    if c.inbound == [] {
      assert w.inbound[1..] == [];
      assert Serve(w) == Handle(c, line);
    } else {
      assert w.inbound[1..] == c.inbound[1..] + [line];
      assert Serve(w) == Write(Serve(c), line);
      ServeAllWrite(Serve(c), line);
    }
  }

  /** The server never takes a reply back, and ends with nothing left to read. */
  lemma {:induction false} ServeAllGrows(c: Conn)
    ensures c.outbound <= ServeAll(c).outbound
    ensures ServeAll(c).inbound == []
    decreases |c.inbound|
  {
    if c.inbound != [] {
      ServeAllGrows(Serve(c));
    }
  }

  /** Whatever the server has read so far, an idle exchange ends in one of two ways. */
  lemma {:induction false} IdleExchangeOutcome(c: Conn, p: nat)
    requires IdleExchange(c, p)
    ensures ServeAll(c) == Conn([], Idling(p), []) || ServeAll(c) == Conn([], Ready, [IdleReply(p)])
    decreases |c.inbound|
  {
    if c.inbound != [] {
      ExchangeStep(c, p);
      IdleExchangeOutcome(Serve(c), p);
    }
  }

  /** Every exchange survives the server reading a line. */
  lemma ExchangeStep(c: Conn, p: nat)
    requires c.inbound != []
    ensures Quiet(c) ==> Quiet(Serve(c))
    ensures IdleExchange(c, p) ==> IdleExchange(Serve(c), p)
    ensures CommandExchange(c) ==> CommandExchange(Serve(c))
    ensures Harmless(c) ==> Harmless(Serve(c))
    ensures Harmless(c) && c.mode.Idling? ==> c.inbound[0].NoIdle?
  {
    var rest := Significant(c.inbound[1..]);
    assert Significant(c.inbound) == if c.inbound[0].NoIdle? then rest else [c.inbound[0]] + rest;
    if !c.inbound[0].NoIdle? {
      assert Significant(c.inbound)[0] == c.inbound[0];
      assert Significant(c.inbound)[1..] == rest;
    }
  }

  /** A `noidle` at any moment of an idle exchange makes the server answer. */
  lemma NoIdleWakes(c: Conn, p: nat, target: nat)
    requires IdleExchange(c, p)
    ensures IdleExchange(Write(c, NoIdle(target)), p) && Woken(Write(c, NoIdle(target)))
  {
    SignificantAppend(c.inbound, NoIdle(target));
    ServeAllWrite(c, NoIdle(target));
    IdleExchangeOutcome(c, p);
  }

  // ---- which idle period a noidle can end

  /** The period the server is in. */
  function Current(c: Conn): Option<nat> {
    if c.mode.Idling? then Some(c.mode.period) else None
  }

  /** Every `noidle` that would be read during a period was meant for that period. */
  predicate Targeted(last: Option<nat>, lines: seq<Line>)
    decreases lines
  {
    lines != [] ==>
      && (lines[0].NoIdle? && last.Some? ==> lines[0].target == last.value)
      && Targeted(Reading(last, lines[0]), lines[1..])
  }

  /** The latest period started by `lines`, or the one before. */
  function LastIdle(last: Option<nat>, lines: seq<Line>): Option<nat>
    decreases lines
  {
    if lines == [] then last else LastIdle(Reading(last, lines[0]), lines[1..])
  }

  function Reading(last: Option<nat>, line: Line): Option<nat> {
    if line.Idle? then Some(line.period) else last
  }

  /** No `noidle` under way can end a period other than its own, `p` being the newest. */
  predicate OnTarget(c: Conn, p: nat) {
    && Targeted(Current(c), c.inbound)
    && (LastIdle(Current(c), c.inbound) == None || LastIdle(Current(c), c.inbound) == Some(p))
  }

  lemma {:induction false} TargetedAppend(last: Option<nat>, lines: seq<Line>, line: Line)
    requires Targeted(last, lines)
    requires line.NoIdle? && LastIdle(last, lines).Some? ==> line.target == LastIdle(last, lines).value
    ensures Targeted(last, lines + [line])
    ensures LastIdle(last, lines + [line]) == Reading(LastIdle(last, lines), line)
    decreases lines
  {
    if lines == [] {
      assert lines + [line] == [line];
      assert [line][1..] == [];
    } else {
      TargetedAppend(Reading(last, lines[0]), lines[1..], line);
      assert (lines + [line])[1..] == lines[1..] + [line];
    }
  }

  /** Leaving idle only weakens the requirement. */
  lemma {:induction false} TargetedRelax(p: nat, lines: seq<Line>)
    requires Targeted(Some(p), lines)
    ensures Targeted(None, lines)
    ensures LastIdle(None, lines) == None || LastIdle(None, lines) == LastIdle(Some(p), lines)
  {
    if lines != [] && !lines[0].Idle? {
      TargetedRelax(p, lines[1..]);
    }
  }

  lemma OnTargetServe(c: Conn, p: nat)
    requires c.inbound != [] && OnTarget(c, p)
    ensures Serve(c).mode != Fault ==> OnTarget(Serve(c), p)
    ensures c.inbound[0].NoIdle? && c.mode.Idling? ==> c.inbound[0].target == c.mode.period
  {
    if c.inbound[0].NoIdle? && c.mode.Idling? {
      TargetedRelax(c.mode.period, c.inbound[1..]);
    }
  }

  lemma OnTargetNotify(c: Conn, p: nat)
    requires c.mode.Idling? && OnTarget(c, p)
    ensures OnTarget(Notify(c), p)
  {
    TargetedRelax(c.mode.period, c.inbound);
  }

  lemma OnTargetWrite(c: Conn, p: nat, line: Line)
    requires OnTarget(c, p)
    requires line.NoIdle? ==> line.target == p
    ensures line.Idle? ==> OnTarget(Write(c, line), line.period)
    ensures !line.Idle? ==> OnTarget(Write(c, line), p)
  {
    TargetedAppend(Current(c), c.inbound, line);
  }

  /** A command that was written is answered. */
  lemma {:induction false} CommandAnswered(c: Conn)
    requires CommandExchange(c)
    ensures Woken(c)
    decreases |c.inbound|
  {
    if c.outbound != [] {
      ServeAllGrows(c);
    } else {
      ExchangeStep(c, 0);
      CommandAnswered(Serve(c));
    }
  }
}
