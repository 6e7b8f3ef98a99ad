/**
 Adding many items to the queue: one command list for everything left, read the single
 reply, skip the item that failed, go on behind it.
 */
module Enqueue {
  import opened Wrappers
  import opened Text
  import opened Errors
  import opened Proto
  import opened Sequences

  datatype QueuePosition = RelativeAdd(n: nat) | RelativeSub(n: nat) | Absolute(n: nat)

  datatype Request = File(path: string) | Directory(path: string) | Playlist(name: string) | Find(filter: string)

  /** What the server makes of an item when it runs it: the songs it stands for, or an error. */
  datatype Outcome = Adds(songs: seq<string>) | Refuses(code: ErrorCode, message: string)

  datatype Item = Item(request: Request, outcome: Outcome)

  /** MPD's queue and the position of the current song. */
  datatype Player = Player(queue: seq<string>, current: Option<nat>) {
    predicate Valid() {
      current.Some? ==> current.value < |queue|
    }
  }

  // ---- the server

  /** Where a position points; None if it is out of range or there is no current song. */
  function Resolve(position: Option<QueuePosition>, p: Player): Option<nat> {
    match position
    case None => Some(|p.queue|)
    case Some(Absolute(n)) => if n <= |p.queue| then Some(n) else None
    case Some(RelativeAdd(n)) =>
      if p.current.Some? && p.current.value + 1 + n <= |p.queue| then Some(p.current.value + 1 + n) else None
    case Some(RelativeSub(n)) =>
      if p.current.Some? && n <= p.current.value then Some(p.current.value - n) else None
  }

  /** The songs go in as one block; the current song stays the current song. */
  function Insert(p: Player, at: nat, songs: seq<string>): Player
    requires at <= |p.queue|
  {
    Player(p.queue[..at] + songs + p.queue[at..],
           if p.current.Some? && at <= p.current.value then Some(p.current.value + |songs|) else p.current)
  }

  function CommandName(r: Request): string {
    match r
    case File(_) => "add"
    case Directory(_) => "add"
    case Playlist(_) => "load"
    case Find(_) => "findadd"
  }

  predicate Fails(p: Player, item: Item, position: Option<QueuePosition>) {
    item.outcome.Refuses? || Resolve(position, p) == None
  }

  /** One command: it adds its songs, or changes nothing. */
  function Execute(p: Player, item: Item, position: Option<QueuePosition>): (q: Player)
    requires p.Valid()
    ensures q.Valid()
  {
    if Fails(p, item, position) then p
    else Insert(p, Resolve(position, p).value, item.outcome.songs)
  }

  /** The one reply to a command list. */
  datatype Reply = AllOk | FailedAt(item: Item, index: nat)

  function ReplyText(r: Reply): string {
    match r
    case AllOk => "OK\n"
    case FailedAt(item, index) =>
      match item.outcome
      case Refuses(code, message) => AckLine(code, index, CommandName(item.request), message)
      case Adds(_) => AckLine(Argument, index, CommandName(item.request), "Bad song index")
  }

  /** A command list: in order, up to the first failure, with one reply for all of it. */
  function RunList(p: Player, items: seq<Item>, position: Option<QueuePosition>, index: nat): (r: (Player, Reply))
    requires p.Valid()
    ensures r.0.Valid()
    decreases items
  {
    if items == [] then (p, AllOk)
    else if Fails(p, items[0], position) then (p, FailedAt(items[0], index))
    else RunList(Execute(p, items[0], position), items[1..], position, index + 1)
  }

  /** The simple meaning: every item on its own, failures skipped. */
  function ExecuteAll(p: Player, items: seq<Item>, position: Option<QueuePosition>): (q: Player)
    requires p.Valid()
    ensures q.Valid()
    decreases items
  {
    if items == [] then p else ExecuteAll(Execute(p, items[0], position), items[1..], position)
  }

  /** The songs of the items that do not fail, in order. */
  function SongsOf(items: seq<Item>): seq<string> {
    if items == [] then []
    else SongsOfOne(items[0]) + SongsOf(items[1..])
  }

  function SongsOfOne(item: Item): seq<string> {
    if item.outcome.Adds? then item.outcome.songs else []
  }

  // ---- positions

  predicate ShouldReverse(position: Option<QueuePosition>) {
    position.Some? && !position.value.RelativeSub?
  }

  /** The order in which the commands are sent. */
  function SendOrder(items: seq<Item>, position: Option<QueuePosition>): seq<Item> {
    if ShouldReverse(position) then Reverse(items) else items
  }

  lemma BlocksRegroup(a: seq<string>, b: seq<string>, c: seq<string>)
    ensures a + (b + c) == (a + b) + c
  {
  }

  lemma {:induction false} SongsOfConcat(a: seq<Item>, b: seq<Item>)
    ensures SongsOf(a + b) == SongsOf(a) + SongsOf(b)
  {
    if a == [] {
      assert a + b == b;
    } else {
      SongsOfConcat(a[1..], b);
      assert (a + b)[0] == a[0] && (a + b)[1..] == a[1..] + b;
      BlocksRegroup(SongsOfOne(a[0]), SongsOf(a[1..]), SongsOf(b));
    }
  }

  /** Where the next command of the same kind points after an insertion. */
  lemma ResolveAfter(p: Player, position: Option<QueuePosition>, songs: seq<string>)
    requires p.Valid() && Resolve(position, p).Some?
    ensures var at := Resolve(position, p).value;
      && Insert(p, at, songs).Valid()
      && Resolve(position, Insert(p, at, songs)) == Some(if ShouldReverse(position) then at else at + |songs|)
  {
  }

  /** Two adjacent blocks are one. */
  lemma InsertTwice(p: Player, at: nat, first: seq<string>, second: seq<string>)
    requires p.Valid() && at <= |p.queue|
    ensures Insert(Insert(p, at, first), at + |first|, second) == Insert(p, at, first + second)
    ensures Insert(Insert(p, at, first), at, second) == Insert(p, at, second + first)
  {
    SpliceBehind(p.queue, at, first, second);
    SpliceBefore(p.queue, at, first, second);
  }

  lemma SpliceBehind(q: seq<string>, at: nat, first: seq<string>, second: seq<string>)
    requires at <= |q|
    ensures var q1 := q[..at] + first + q[at..];
      q1[..at + |first|] + second + q1[at + |first|..] == q[..at] + (first + second) + q[at..]
  {
    var q1 := q[..at] + first + q[at..];
    assert q1[..at + |first|] == q[..at] + first;
    assert q1[at + |first|..] == q[at..];
  }

  lemma SpliceBefore(q: seq<string>, at: nat, first: seq<string>, second: seq<string>)
    requires at <= |q|
    ensures var q1 := q[..at] + first + q[at..];
      q1[..at] + second + q1[at..] == q[..at] + (second + first) + q[at..]
  {
    var q1 := q[..at] + first + q[at..];
    assert q1[..at] == q[..at];
    assert q1[at..] == first + q[at..];
  }

  lemma InsertNothing(p: Player, at: nat)
    requires at <= |p.queue|
    ensures Insert(p, at, []) == p
  {
    assert p.queue[..at] + [] + p.queue[at..] == p.queue;
  }

  lemma ExecuteInserts(p: Player, item: Item, position: Option<QueuePosition>)
    requires p.Valid() && Resolve(position, p).Some?
    ensures Execute(p, item, position) == Insert(p, Resolve(position, p).value, SongsOfOne(item))
  {
    InsertNothing(p, Resolve(position, p).value);
  }

  /** One more item in front of those sent. */
  lemma BlockGrows(sent: seq<Item>, position: Option<QueuePosition>)
    requires sent != []
    ensures SongsOf(if ShouldReverse(position) then Reverse(sent) else sent)
         == if ShouldReverse(position) then SongsOf(Reverse(sent[1..])) + SongsOfOne(sent[0])
            else SongsOfOne(sent[0]) + SongsOf(sent[1..])
  {
    if ShouldReverse(position) {
      ReverseFirst(sent);
      SongsOfConcat(Reverse(sent[1..]), [sent[0]]);
      assert SongsOf([sent[0]]) == SongsOfOne(sent[0]) by { assert [sent[0]][1..] == []; }
    }
  }

  /** Whatever the kind of position, sending in SendOrder splices all songs in as one block at
      the place the position had in the starting queue, in their original order. */
  lemma {:induction false} OneBlock(p: Player, sent: seq<Item>, position: Option<QueuePosition>)
    requires p.Valid()
    ensures Resolve(position, p) == None ==> ExecuteAll(p, sent, position) == p
    ensures Resolve(position, p).Some? ==>
      ExecuteAll(p, sent, position)
      == Insert(p, Resolve(position, p).value, SongsOf(if ShouldReverse(position) then Reverse(sent) else sent))
    decreases sent
  {
    if Resolve(position, p).Some? {
      var at := Resolve(position, p).value;
      if sent == [] {
        InsertNothing(p, at);
      } else {
        var songs := SongsOfOne(sent[0]);
        ExecuteInserts(p, sent[0], position);
        ResolveAfter(p, position, songs);
        OneBlock(Execute(p, sent[0], position), sent[1..], position);
        var block := SongsOf(if ShouldReverse(position) then Reverse(sent[1..]) else sent[1..]);
        BlockGrows(sent, position);
        InsertTwice(p, at, songs, block);
      }
    } else if sent != [] {
      OneBlock(p, sent[1..], position);
    }
  }

  /** What a position means for the current song: behind +n there are the current song and n more,
      behind -n the block, n songs and the current one; and a position that is not there is one
      with fewer songs than that. */
  lemma RelativePlaces(p: Player, songs: seq<string>, n: nat)
    requires p.Valid() && p.current.Some?
    ensures var c := p.current.value;
      var behind, before := Resolve(Some(RelativeAdd(n)), p), Resolve(Some(RelativeSub(n)), p);
      && (behind.None? <==> n > |p.queue[c + 1..]|)
      && (before.None? <==> n > |p.queue[..c]|)
      && (behind.Some? ==>
            var q := Insert(p, behind.value, songs);
            && q.current == Some(c)
            && q.queue == p.queue[..c] + [p.queue[c]] + p.queue[c + 1..c + 1 + n] + songs + p.queue[c + 1 + n..])
      && (before.Some? ==>
            var q := Insert(p, before.value, songs);
            && q.current == Some(c + |songs|)
            && q.queue == p.queue[..c - n] + songs + p.queue[c - n..c] + [p.queue[c]] + p.queue[c + 1..])
  {
    var c := p.current.value;
    if n <= |p.queue[c + 1..]| {
      assert p.queue[..c + 1 + n] == p.queue[..c] + [p.queue[c]] + p.queue[c + 1..c + 1 + n];
    }
    if n <= c {
      assert p.queue[c - n..] == p.queue[c - n..c] + [p.queue[c]] + p.queue[c + 1..];
    }
  }

  /** An absolute position has that many songs before it; with none the songs go to the end. */
  lemma AbsolutePlaces(p: Player, songs: seq<string>, n: nat)
    requires p.Valid()
    ensures Resolve(None, p).Some? && Insert(p, Resolve(None, p).value, songs).queue == p.queue + songs
    ensures Resolve(Some(Absolute(n)), p).None? <==> n > |p.queue|
    ensures n <= |p.queue| ==>
      Resolve(Some(Absolute(n)), p).Some?
      && Insert(p, Resolve(Some(Absolute(n)), p).value, songs).queue == p.queue[..n] + songs + p.queue[n..]
  {
    assert p.queue[..|p.queue|] == p.queue && p.queue[|p.queue|..] == [];
  }

  /** The reverse-before-insert of the client is right for every position. */
  lemma SpliceInOriginalOrder(p: Player, items: seq<Item>, position: Option<QueuePosition>)
    requires p.Valid() && Resolve(position, p).Some?
    ensures ExecuteAll(p, SendOrder(items, position), position)
         == Insert(p, Resolve(position, p).value, SongsOf(items))
  {
    OneBlock(p, SendOrder(items, position), position);
    ReverseReverse(items);
  }

  // ---- the client

  /** Item `k` will fail; `reachable` says whether the position is in range, which no insertion changes. */
  predicate BadAt(sent: seq<Item>, reachable: bool, k: int) {
    0 <= k < |sent| && (sent[k].outcome.Refuses? || !reachable)
  }

  function CountBad(sent: seq<Item>, reachable: bool): nat {
    if sent == [] then 0
    else CountBad(sent[..|sent| - 1], reachable) + if BadAt(sent, reachable, |sent| - 1) then 1 else 0
  }

  /** A failure so far behind the previous one that its index in its list is beyond `u8`. */
  predicate LateFailure(sent: seq<Item>, reachable: bool, j: nat) {
    BadAt(sent, reachable, j) && j > U8_MAX && forall k | j - U8_MAX - 1 <= k < j :: !BadAt(sent, reachable, k)
  }

  /** Server replies are single lines. */
  predicate Printable(items: seq<Item>) {
    forall item | item in items && item.outcome.Refuses? :: '\n' !in item.outcome.message
  }

  lemma ReachableKept(p: Player, item: Item, position: Option<QueuePosition>)
    requires p.Valid()
    ensures Resolve(position, Execute(p, item, position)).Some? == Resolve(position, p).Some?
  {
    if !Fails(p, item, position) { ResolveAfter(p, position, item.outcome.songs); }
  }

  /** The next failure of a list, if any. */
  function FirstBad(sent: seq<Item>, reachable: bool): (f: nat)
    ensures f <= |sent|
    ensures forall k | 0 <= k < f :: !BadAt(sent, reachable, k)
    ensures f < |sent| ==> BadAt(sent, reachable, f)
  {
    if sent == [] || BadAt(sent, reachable, 0) then 0
    else
      var f := FirstBad(sent[1..], reachable);
      assert forall k | 1 <= k < f + 1 :: BadAt(sent, reachable, k) == BadAt(sent[1..], reachable, k - 1);
      assert BadAt(sent, reachable, f + 1) == BadAt(sent[1..], reachable, f);
      f + 1
  }

  /** The first `n` items on their own. */
  function ExecuteFirst(p: Player, items: seq<Item>, position: Option<QueuePosition>, n: nat): Player
    requires p.Valid() && n <= |items|
    decreases n
  {
    if n == 0 then p else ExecuteFirst(Execute(p, items[0], position), items[1..], position, n - 1)
  }

  lemma {:induction false} ExecuteFirstIsPrefix(p: Player, items: seq<Item>, position: Option<QueuePosition>, n: nat)
    requires p.Valid() && n <= |items|
    ensures ExecuteFirst(p, items, position, n) == ExecuteAll(p, items[..n], position)
    decreases n
  {
    if n > 0 {
      ExecuteFirstIsPrefix(Execute(p, items[0], position), items[1..], position, n - 1);
      assert items[..n][1..] == items[1..][..n - 1];
    }
  }

  /** A command list does what its items do up to the first failure, and reports its index. */
  lemma {:induction false} RunListOutcome(p: Player, sent: seq<Item>, position: Option<QueuePosition>, index: nat)
    requires p.Valid()
    ensures var f := FirstBad(sent, Reachable(p, position));
      && RunList(p, sent, position, index).0 == ExecuteFirst(p, sent, position, f)
      && RunList(p, sent, position, index).1 == if f == |sent| then AllOk else FailedAt(sent[f], index + f)
    decreases sent
  {
    if sent != [] && !BadAt(sent, Reachable(p, position), 0) {
      ReachableKept(p, sent[0], position);
      RunListOutcome(Execute(p, sent[0], position), sent[1..], position, index + 1);
    }
  }

  lemma {:induction false} ReachableAlong(p: Player, items: seq<Item>, position: Option<QueuePosition>)
    requires p.Valid()
    ensures Reachable(ExecuteAll(p, items, position), position) == Reachable(p, position)
    decreases items
  {
    if items != [] {
      ReachableKept(p, items[0], position);
      ReachableAlong(Execute(p, items[0], position), items[1..], position);
    }
  }

  lemma {:induction false} ExecuteAllConcat(p: Player, a: seq<Item>, b: seq<Item>, position: Option<QueuePosition>)
    requires p.Valid()
    ensures ExecuteAll(p, a + b, position) == ExecuteAll(ExecuteAll(p, a, position), b, position)
    decreases a
  {
    if a == [] {
      assert a + b == b;
    } else {
      ExecuteAllConcat(Execute(p, a[0], position), a[1..], b, position);
      assert (a + b)[1..] == a[1..] + b;
    }
  }

  /** Items `i` to `i + f` do what they do on their own. */
  lemma TriedUpTo(p: Player, sent: seq<Item>, position: Option<QueuePosition>, i: nat, f: nat)
    requires p.Valid() && i + f <= |sent|
    ensures ExecuteAll(p, sent[..i + f], position) == ExecuteAll(ExecuteAll(p, sent[..i], position), sent[i..][..f], position)
  {
    assert sent[..i + f] == sent[..i] + sent[i..][..f];
    ExecuteAllConcat(p, sent[..i], sent[i..][..f], position);
  }

  /** A failing item does nothing. */
  lemma FailureSkipped(p: Player, sent: seq<Item>, position: Option<QueuePosition>, k: nat)
    requires p.Valid() && BadAt(sent, Reachable(p, position), k)
    ensures ExecuteAll(p, sent[..k + 1], position) == ExecuteAll(p, sent[..k], position)
  {
    assert sent[..k + 1] == sent[..k] + [sent[k]];
    ExecuteAllConcat(p, sent[..k], [sent[k]], position);
    ReachableAlong(p, sent[..k], position);
    assert [sent[k]][1..] == [];
  }

  /** The first failure of the rest is the next failure of the whole. */
  lemma CountUpTo(sent: seq<Item>, reachable: bool, i: nat, f: nat)
    requires i + f <= |sent| && f == FirstBad(sent[i..], reachable)
    ensures forall k | i <= k < i + f :: !BadAt(sent, reachable, k)
    ensures CountBad(sent[..i + f], reachable) == CountBad(sent[..i], reachable)
    ensures i + f < |sent| ==>
      && BadAt(sent, reachable, i + f)
      && sent[i..][f] == sent[i + f]
      && CountBad(sent[..i + f + 1], reachable) == CountBad(sent[..i], reachable) + 1
  {
    forall k | i <= k < i + f ensures !BadAt(sent, reachable, k) {
      assert !BadAt(sent[i..], reachable, k - i);
    }
    NoneBad(sent, reachable, i, i + f);
    if i + f < |sent| {
      assert BadAt(sent[i..], reachable, f);
      assert sent[..i + f + 1][..i + f] == sent[..i + f];
    }
  }

  lemma {:induction false} NoneBad(sent: seq<Item>, reachable: bool, lo: nat, hi: nat)
    requires lo <= hi <= |sent| && forall k | lo <= k < hi :: !BadAt(sent, reachable, k)
    ensures CountBad(sent[..hi], reachable) == CountBad(sent[..lo], reachable)
    decreases hi
  {
    if lo < hi {
      NoneBad(sent, reachable, lo, hi - 1);
      assert sent[..hi][..hi - 1] == sent[..hi - 1];
      assert BadAt(sent[..hi], reachable, hi - 1) == BadAt(sent, reachable, hi - 1);
    }
  }

  lemma ReadReplyText(reply: Reply)
    requires reply.FailedAt? && reply.item.outcome.Refuses? ==> '\n' !in reply.item.outcome.message
    ensures var (line, rest) := ReadLine(ReplyText(reply));
      && rest == ""
      && (reply.AllOk? ==> line == Success(Ok))
      && (reply.FailedAt? && reply.index <= U8_MAX ==>
            line.Failure? && line.error.Mpd? && line.error.failure.commandListIndex == reply.index)
      && (reply.FailedAt? && reply.index > U8_MAX ==> line == Failure(Parse))
  {
    match reply
    case AllOk =>
      ReadOneLine("OK", "");
      assert "OK" + "\n" + "" == "OK\n";
    case FailedAt(item, index) =>
      var code := if item.outcome.Refuses? then item.outcome.code else Argument;
      var message := if item.outcome.Refuses? then item.outcome.message else "Bad song index";
      NameIsPlain(item.request);
      ReadAck(code, index, CommandName(item.request), message, "");
      assert ReplyText(reply) + "" == ReplyText(reply);
  }

  lemma NameIsPlain(r: Request)
    ensures '}' !in CommandName(r) && '\n' !in CommandName(r)
  {
  }

  // ---- playing

  /** `play`: MPD may refuse for a reason of its own, and does if there is no such song. */
  function Played(p: Player, position: nat, refusal: Option<Outcome>): Player {
    if refusal.None? && position < |p.queue| then p.(current := Some(position)) else p
  }

  function PlayReply(p: Player, position: nat, refusal: Option<Outcome>): string
    requires PlainRefusal(refusal)
  {
    if refusal.Some? then AckLine(refusal.value.code, 0, "play", refusal.value.message)
    else if position < |p.queue| then "OK\n"
    else AckLine(Argument, 0, "play", "Bad song index")
  }

  predicate PlainRefusal(refusal: Option<Outcome>) {
    refusal.Some? ==> refusal.value.Refuses? && '\n' !in refusal.value.message
  }

  lemma PlayReplyRead(p: Player, position: nat, refusal: Option<Outcome>)
    requires PlainRefusal(refusal)
    ensures var (line, rest) := ReadLine(PlayReply(p, position, refusal));
      && rest == ""
      && (if refusal.None? && position < |p.queue| then line == Success(Ok)
          else line.Failure? && line.error.Mpd?
               && line.error.failure.code == if refusal.Some? then refusal.value.code else Argument)
  {
    var reply := PlayReply(p, position, refusal);
    assert reply + "" == reply;
    if refusal.Some? {
      ReadAck(refusal.value.code, 0, "play", refusal.value.message, "");
    } else if position < |p.queue| {
      ReadOneLine("OK", "");
      assert "OK" + "\n" + "" == "OK\n";
    } else {
      ReadAck(Argument, 0, "play", "Bad song index", "");
    }
  }

  function ClearReply(refusal: Option<Outcome>): string
    requires PlainRefusal(refusal)
  {
    if refusal.Some? then AckLine(refusal.value.code, 0, "clear", refusal.value.message) else "OK\n"
  }

  lemma ClearReplyRead(refusal: Option<Outcome>)
    requires PlainRefusal(refusal)
    ensures var (line, rest) := ReadLine(ClearReply(refusal));
      && rest == ""
      && (if refusal.None? then line == Success(Ok)
          else line.Failure? && line.error.Mpd? && line.error.failure.code == refusal.value.code)
  {
    assert ClearReply(refusal) + "" == ClearReply(refusal);
    if refusal.Some? {
      ReadAck(refusal.value.code, 0, "clear", refusal.value.message, "");
    } else {
      ReadOneLine("OK", "");
      assert "OK" + "\n" + "" == "OK\n";
    }
  }

  /** The queue is to be cleared and MPD refuses. */
  predicate ClearRefused(replace: bool, clearing: Option<Outcome>, lines: nat) {
    replace && lines > 0 && clearing.Some?
  }

  /** The client's connection and the server behind it. */
  class Mpd {
    const client: Client
    var player: Player
    /** How many more lines can be written before the socket breaks. */
    var lines: nat

    constructor (player: Player, lines: nat)
      requires player.Valid()
      ensures this.player == player && this.lines == lines && client.incoming == "" && fresh(client)
    {
      this.client := new Client();
      this.player := player;
      this.lines := lines;
    }

    /** Begin the list, send the commands, end the list; the server runs it once it has it all. */
    method SendList(items: seq<Item>, position: Option<QueuePosition>) returns (ok: bool)
      requires player.Valid()
      modifies this, client
      ensures ok <==> old(lines) >= ListLines(|items|)
      ensures ok ==>
        && lines == old(lines) - ListLines(|items|)
        && player == RunList(old(player), items, position, 0).0
        && client.incoming == old(client.incoming) + ReplyText(RunList(old(player), items, position, 0).1)
      ensures !ok ==> lines == 0 && player == old(player) && client.incoming == old(client.incoming)
    {
      if lines < ListLines(|items|) {
        lines := 0;
        return false;
      }
      lines := lines - ListLines(|items|);
      client.Receive(ReplyText(RunList(player, items, position, 0).1));
      player := RunList(player, items, position, 0).0;
      return true;
    }

    /** `read_ok` on the reply to a list: fine, or an MPD error that names the failed item, or a
        parse error when its index is beyond `u8`. */
    method ReadListReply(ghost reply: Reply) returns (r: Result<(), MpdError>)
      requires client.incoming == ReplyText(reply)
      requires reply.FailedAt? && reply.item.outcome.Refuses? ==> '\n' !in reply.item.outcome.message
      modifies client
      ensures client.incoming == ""
      ensures reply.AllOk? ==> r == Success(())
      ensures reply.FailedAt? && reply.index <= U8_MAX ==>
        r.Failure? && r.error.Mpd? && r.error.failure.commandListIndex == reply.index
      ensures reply.FailedAt? && reply.index > U8_MAX ==> r == Failure(Parse)
    {
      ReadReplyText(reply);
      r := client.ReadOk();
    }

    /** One turn of the loop, from the start of the list to its reply. */
    method TryFrom(sent: seq<Item>, i: nat, position: Option<QueuePosition>, ghost start: Player, ghost errors: nat)
      returns (reply: Result<(), MpdError>)
      requires i < |sent| && Printable(sent) && start.Valid() && player.Valid() && client.incoming == ""
      requires Progress(start, sent, position, i, player, errors)
      modifies this, client
      ensures client.incoming == "" && player.Valid()
      ensures TurnOutcome(start, sent, position, i, errors, reply, player, old(lines), lines)
      ensures reply == Failure(Io) ==> player == old(player)
    {
      ghost var before, left := player, lines;
      ghost var outcome := RunList(player, sent[i..], position, 0).1;
      ReplyIsPlain(start, sent, position, i, player, errors);
      var ok := SendList(sent[i..], position);
      if !ok {
        return Failure(Io);
      }
      reply := ReadListReply(outcome);
      ReplyMeans(start, sent, position, i, errors, before, reply, left);
    }

    /** `read_ok` on the reply to `play`. */
    method ReadPlayReply(ghost p: Player, ghost position: nat, ghost refusal: Option<Outcome>) returns (r: Result<(), MpdError>)
      requires PlainRefusal(refusal) && client.incoming == PlayReply(p, position, refusal)
      modifies client
      ensures client.incoming == ""
      ensures if refusal.None? && position < |p.queue| then r == Success(())
              else r.Failure? && r.error.Mpd?
                   && r.error.failure.code == if refusal.Some? then refusal.value.code else Argument
    {
      PlayReplyRead(p, position, refusal);
      r := client.ReadOk();
    }

    /** `play_position_safe`: the song is played if it is there and MPD does not refuse; an
        argument error is passed over. */
    method PlayPositionSafe(position: nat, refusal: Option<Outcome>) returns (r: Result<(), MpdError>)
      requires client.incoming == "" && PlainRefusal(refusal)
      modifies this, client
      ensures client.incoming == ""
      ensures player.queue == old(player).queue && lines == (if old(lines) == 0 then 0 else old(lines) - 1)
      ensures old(lines) > 0 && refusal.None? && position < |player.queue| ==> player.current == Some(position)
      ensures old(lines) == 0 || refusal.Some? || position >= |player.queue| ==> player.current == old(player).current
      ensures r.Success? <==> old(lines) > 0 && (refusal.None? || refusal.value.code == Argument)
    {
      if lines == 0 {
        return Failure(Io);
      }
      lines := lines - 1;
      client.Receive(PlayReply(player, position, refusal));
      r := ReadPlayReply(player, position, refusal);
      player := Played(player, position, refusal);
      if r.Failure? && r.error.Mpd? && r.error.failure.code == Argument {
        r := Success(());
      }
    }

    /** `read_ok` on the reply to `clear`. */
    method ReadClearReply(ghost refusal: Option<Outcome>) returns (r: Result<(), MpdError>)
      requires PlainRefusal(refusal) && client.incoming == ClearReply(refusal)
      modifies client
      ensures client.incoming == ""
      ensures if refusal.None? then r == Success(())
              else r.Failure? && r.error.Mpd? && r.error.failure.code == refusal.value.code
    {
      ClearReplyRead(refusal);
      r := client.ReadOk();
    }

    /** `clear`: the queue is emptied unless MPD refuses. */
    method Clear(refusal: Option<Outcome>) returns (r: Result<(), MpdError>)
      requires client.incoming == "" && PlainRefusal(refusal)
      modifies this, client
      ensures client.incoming == ""
      ensures old(lines) == 0 ==> r == Failure(Io) && lines == 0 && player == old(player)
      ensures old(lines) > 0 ==> lines == old(lines) - 1
      ensures old(lines) > 0 && refusal.None? ==> r == Success(()) && player == Player([], None)
      ensures old(lines) > 0 && refusal.Some? ==>
        r.Failure? && r.error.Mpd? && r.error.failure.code == refusal.value.code && player == old(player)
    {
      if lines == 0 {
        return Failure(Io);
      }
      lines := lines - 1;
      client.Receive(ClearReply(refusal));
      r := ReadClearReply(refusal);
      if refusal.None? {
        player := Player([], None);
      }
    }

    /** The items first, then the song to play, if all went well and one is asked for. */
    method EnqueueMultiple(items: seq<Item>, autoplay: Option<nat>, position: Option<QueuePosition>, replace: bool,
                           clearing: Option<Outcome>, refusal: Option<Outcome>)
      returns (r: Result<(), MpdError>, errors: nat, ghost queued: Result<(), MpdError>, ghost filled: Player, ghost left: nat)
      requires player.Valid() && client.incoming == "" && Printable(items)
      requires PlainRefusal(clearing) && PlainRefusal(refusal)
      modifies this, client
      ensures client.incoming == "" && player.Valid()
      ensures items == [] ==> r == Success(()) && player == old(player)
      ensures items != [] && ClearRefused(replace, clearing, old(lines)) ==>
        r.Failure? && r.error.Mpd? && r.error.failure.code == clearing.value.code && player == old(player)
      ensures items != [] && !ClearRefused(replace, clearing, old(lines)) ==>
        Attempted(old(player), items, position, replace, old(lines), queued, filled, errors)
      ensures items != [] && (queued.Failure? || autoplay.None?) ==> r == queued && player == filled
      ensures items != [] && queued.Success? ==>
        left == old(lines) - (if replace then 1 else 0)
                - LinesNeeded(SendOrder(items, position), Reachable(Start(old(player), replace), position), 0)
      ensures items != [] && queued.Success? && autoplay.Some? ==>
        && player.queue == filled.queue
        && player.current == (if left > 0 && refusal.None? && autoplay.value < |filled.queue| then autoplay else filled.current)
        && (r.Success? <==> left > 0 && (refusal.None? || refusal.value.code == Argument))
      ensures items != [] && replace && queued.Success? ==>
        player.queue == (if InEmptyQueue(position) then SongsOf(items) else []) && filled.current.None?
      ensures !replace ==> KeepsQueue(old(player).queue, player.queue)
    {
      r, errors := EnqueueItems(items, position, replace, clearing);
      queued, filled, left := r, player, lines;
      if items == [] || r.Failure? || autoplay.None? {
        return;
      }
      r := PlayPositionSafe(autoplay.value, refusal);
    }

    /** The queue ends up with the songs of every item that does not fail, as one block in the
        original order at the place `position` had at the start, and `errors` counts the others:
        exactly when no failure comes more than 255 items behind the last one and the socket
        takes all lines. Otherwise the call ends there, with everything before it done. No items
        do nothing, not even the clearing. */
    method EnqueueItems(items: seq<Item>, position: Option<QueuePosition>, replace: bool, clearing: Option<Outcome>)
      returns (r: Result<(), MpdError>, errors: nat)
      requires player.Valid() && client.incoming == "" && Printable(items) && PlainRefusal(clearing)
      modifies this, client
      ensures client.incoming == "" && player.Valid()
      ensures items == [] ==> r == Success(()) && errors == 0 && player == old(player)
      ensures items != [] && ClearRefused(replace, clearing, old(lines)) ==>
        r.Failure? && r.error.Mpd? && r.error.failure.code == clearing.value.code && player == old(player) && errors == 0
      ensures items != [] && !ClearRefused(replace, clearing, old(lines)) ==>
        Attempted(old(player), items, position, replace, old(lines), r, player, errors)
      ensures items != [] && r.Success? ==>
        lines == old(lines) - (if replace then 1 else 0)
                 - LinesNeeded(SendOrder(items, position), Reachable(Start(old(player), replace), position), 0)
      ensures items != [] && replace && r.Success? ==>
        player == Player(if InEmptyQueue(position) then SongsOf(items) else [], None)
      ensures items != [] && replace && old(lines) > 0 && clearing.None? ==> OnlyItems(items, position, player)
      ensures !replace ==> KeepsOld(old(player), player)
    {
      ghost var before, first := player, lines;
      if items == [] {
        InsertKeepsOld(player, 0, []);
        InsertNothing(player, 0);
        return Success(()), 0;
      }
      var sent := if ShouldReverse(position) then Reverse(items) else items;
      SendOrderKeepsItems(items, position);
      if replace {
        r := Clear(clearing);
        if r.Failure? {
          return r, 0;
        }
      }
      r, errors := TryAll(sent, position);
      if replace {
        ReplacedMeaning(before, items, position, first, r, player, errors);
      } else {
        KeptMeaning(before, items, position, first, r, player, errors);
      }
    }

    /** The loop of `enqueue_multiple`. */
    method TryAll(sent: seq<Item>, position: Option<QueuePosition>) returns (r: Result<(), MpdError>, errors: nat)
      requires sent != [] && player.Valid() && client.incoming == "" && Printable(sent)
      modifies this, client
      ensures client.incoming == "" && player.Valid()
      ensures r == Failure(Io) <==> old(lines) < LinesNeeded(sent, Reachable(old(player), position), 0)
      ensures r == Failure(Io) ==> StoppedShort(old(player), sent, position, player, errors)
      ensures r != Failure(Io) ==> Enqueued(old(player), sent, position, r, player, errors)
      ensures r.Success? ==> lines == old(lines) - LinesNeeded(sent, Reachable(old(player), position), 0)
    {
      ghost var start, first := player, lines;
      errors := 0;
      var i := 0;
      assert sent[..0] == [];
      while i < |sent|
        invariant i <= |sent| && player.Valid() && client.incoming == ""
        invariant Progress(start, sent, position, i, player, errors)
        invariant Paid(sent, Reachable(start, position), i, first, lines)
        decreases |sent| - i
      {
        var stop;
        i, errors, stop := Turn(sent, i, position, errors, start, first);
        if stop.Some? {
          return Failure(stop.value), errors;
        }
      }
      DoneIsEnqueued(start, sent, position, player, errors);
      r := Success(());
    }

    /** One turn of the loop and what it makes of the reply. */
    method Turn(sent: seq<Item>, i: nat, position: Option<QueuePosition>, errors: nat, ghost start: Player, ghost first: nat)
      returns (next: nat, now: nat, stop: Option<MpdError>)
      requires i < |sent| && Printable(sent) && start.Valid() && player.Valid() && client.incoming == ""
      requires Progress(start, sent, position, i, player, errors) && Paid(sent, Reachable(start, position), i, first, lines)
      modifies this, client
      ensures client.incoming == "" && player.Valid()
      ensures TurnGoesOn(start, sent, position, i, first, next, now, stop, player, lines)
    {
      ghost var before, left := player, lines;
      var reply := TryFrom(sent, i, position, start, errors);
      var after := AfterReply(reply, i, |sent|, errors);
      next, now, stop := after.0, after.1, after.2;
      TurnMeans(start, sent, position, i, errors, reply, before, player, first, left, lines);
    }
  }

  /** What the reply to one list tells. */
  ghost predicate TurnOutcome(start: Player, sent: seq<Item>, position: Option<QueuePosition>, i: nat, errors: nat,
                              reply: Result<(), MpdError>, p: Player, before: nat, left: nat)
    requires start.Valid() && i < |sent|
  {
    var cost := ListLines(|sent| - i);
    var reachable := Reachable(start, position);
    match reply
    case Success(_) =>
      left == before - cost && LinesNeeded(sent, reachable, i) == cost && Progress(start, sent, position, |sent|, p, errors)
    case Failure(Mpd(failure)) =>
      var next := i + 1 + failure.commandListIndex;
      && left == before - cost && Progress(start, sent, position, next, p, errors + 1)
      && LinesNeeded(sent, reachable, i) == cost + LinesNeeded(sent, reachable, next)
    case Failure(Io) => before < LinesNeeded(sent, reachable, i)
    case Failure(e) =>
      && e == Parse && left == before - cost && LinesNeeded(sent, reachable, i) == cost
      && GaveUp(start, sent, position, p, errors)
  }

  lemma ReplyIsPlain(start: Player, sent: seq<Item>, position: Option<QueuePosition>, i: nat, p: Player, errors: nat)
    requires start.Valid() && p.Valid() && i < |sent| && Printable(sent) && Progress(start, sent, position, i, p, errors)
    ensures var outcome := RunList(p, sent[i..], position, 0).1;
      outcome.FailedAt? && outcome.item.outcome.Refuses? ==> '\n' !in outcome.item.outcome.message
  {
    var f := BatchStep(start, sent, position, i, p, errors);
    if f < |sent[i..]| { assert sent[i..][f] == sent[i + f] && sent[i + f] in sent; }
  }

  lemma ReplyMeans(start: Player, sent: seq<Item>, position: Option<QueuePosition>, i: nat, errors: nat,
                   p: Player, reply: Result<(), MpdError>, lines: nat)
    requires start.Valid() && p.Valid() && i < |sent| && Progress(start, sent, position, i, p, errors)
    requires lines >= ListLines(|sent| - i)
    requires match RunList(p, sent[i..], position, 0).1
             case AllOk => reply == Success(())
             case FailedAt(_, f) =>
               if f <= U8_MAX then reply.Failure? && reply.error.Mpd? && reply.error.failure.commandListIndex == f
               else reply == Failure(Parse)
    ensures TurnOutcome(start, sent, position, i, errors, reply, RunList(p, sent[i..], position, 0).0,
                        lines, lines - ListLines(|sent| - i))
  {
    var f := BatchStep(start, sent, position, i, p, errors);
    NeededAt(sent, Reachable(start, position), i, f);
    OutcomeMeans(start, sent, position, i, errors, RunList(p, sent[i..], position, 0).0, reply, lines, f);
  }

  lemma OutcomeMeans(start: Player, sent: seq<Item>, position: Option<QueuePosition>, i: nat, errors: nat,
                     after: Player, reply: Result<(), MpdError>, lines: nat, f: nat)
    requires start.Valid() && i < |sent| && i + f <= |sent| && lines >= ListLines(|sent| - i)
    requires LinesNeeded(sent, Reachable(start, position), i) == ListLines(|sent| - i)
      + if i + f < |sent| && f <= U8_MAX then LinesNeeded(sent, Reachable(start, position), i + f + 1) else 0
    requires if i + f == |sent| then reply == Success(()) && Progress(start, sent, position, |sent|, after, errors)
             else if f <= U8_MAX then
               reply.Failure? && reply.error.Mpd? && reply.error.failure.commandListIndex == f
               && Progress(start, sent, position, i + 1 + f, after, errors + 1)
             else reply == Failure(Parse) && GaveUp(start, sent, position, after, errors)
    ensures TurnOutcome(start, sent, position, i, errors, reply, after, lines, lines - ListLines(|sent| - i))
  {
  }

  lemma NeededAt(sent: seq<Item>, reachable: bool, i: nat, f: nat)
    requires i < |sent| && f == FirstBad(sent[i..], reachable)
    ensures f <= |sent| - i
    ensures LinesNeeded(sent, reachable, i)
         == ListLines(|sent| - i) + if i + f < |sent| && f <= U8_MAX then LinesNeeded(sent, reachable, i + f + 1) else 0
  {
  }

  /** Where the loop goes on, the errors so far, and the error that ends it. */
  function AfterReply(reply: Result<(), MpdError>, i: nat, n: nat, errors: nat): (nat, nat, Option<MpdError>) {
    match reply
    case Success(_) => (n, errors, None)
    case Failure(Mpd(failure)) => (i + 1 + failure.commandListIndex, errors + 1, None)
    case Failure(e) => (i, errors, Some(e))
  }

  /** How the loop goes on, or ends. */
  ghost predicate TurnGoesOn(start: Player, sent: seq<Item>, position: Option<QueuePosition>, i: nat, first: nat,
                             next: nat, errors: nat, stop: Option<MpdError>, p: Player, left: nat)
    requires start.Valid()
  {
    var reachable := Reachable(start, position);
    match stop
    case None =>
      && i < next <= |sent| && Progress(start, sent, position, next, p, errors)
      && Paid(sent, reachable, next, first, left)
    case Some(Io) => StoppedShort(start, sent, position, p, errors) && first < LinesNeeded(sent, reachable, 0)
    case Some(e) =>
      && e == Parse && Enqueued(start, sent, position, Failure(Parse), p, errors)
      && first >= LinesNeeded(sent, reachable, 0)
  }

  lemma TurnMeans(start: Player, sent: seq<Item>, position: Option<QueuePosition>, i: nat, errors: nat,
                  reply: Result<(), MpdError>, before: Player, p: Player, first: nat, left: nat, now: nat)
    requires start.Valid() && i < |sent| && Paid(sent, Reachable(start, position), i, first, left)
    requires Progress(start, sent, position, i, before, errors) && (reply == Failure(Io) ==> p == before)
    requires TurnOutcome(start, sent, position, i, errors, reply, p, left, now)
    ensures var (next, count, stop) := AfterReply(reply, i, |sent|, errors);
      TurnGoesOn(start, sent, position, i, first, next, count, stop, p, now)
  {
    GaveUpIsEnqueued(start, sent, position, p, errors);
  }

  /** The lines written so far are those of the lists before item `i`. */
  predicate Paid(sent: seq<Item>, reachable: bool, i: nat, first: nat, left: nat)
    requires i <= |sent|
  {
    left + LinesNeeded(sent, reachable, 0) == first + LinesNeeded(sent, reachable, i)
  }

  lemma GaveUpIsEnqueued(start: Player, sent: seq<Item>, position: Option<QueuePosition>, p: Player, errors: nat)
    requires start.Valid()
    ensures GaveUp(start, sent, position, p, errors) ==> Enqueued(start, sent, position, Failure(Parse), p, errors)
  {
  }

  lemma DoneIsEnqueued(start: Player, sent: seq<Item>, position: Option<QueuePosition>, p: Player, errors: nat)
    requires start.Valid() && Progress(start, sent, position, |sent|, p, errors)
    ensures Enqueued(start, sent, position, Success(()), p, errors)
  {
    assert sent[..|sent|] == sent;
  }

  function Reachable(start: Player, position: Option<QueuePosition>): bool {
    Resolve(position, start).Some?
  }

  /** Items before `i` were tried once each, the last of them failed, none was too late. */
  predicate Progress(start: Player, sent: seq<Item>, position: Option<QueuePosition>, i: nat, p: Player, errors: nat)
    requires start.Valid()
  {
    && i <= |sent|
    && p == ExecuteAll(start, sent[..i], position)
    && errors == CountBad(sent[..i], Reachable(start, position))
    && (i == 0 || i == |sent| || BadAt(sent, Reachable(start, position), i - 1))
    && forall j: nat | j < i :: !LateFailure(sent, Reachable(start, position), j)
  }

  /** Items before the first late failure were tried, and nothing from it on. */
  ghost predicate GaveUp(start: Player, sent: seq<Item>, position: Option<QueuePosition>, p: Player, errors: nat)
    requires start.Valid()
  {
    exists j: nat | LateFailure(sent, Reachable(start, position), j) ::
      && (forall k: nat | k < j :: !LateFailure(sent, Reachable(start, position), k))
      && p == ExecuteAll(start, sent[..j], position)
      && errors == CountBad(sent[..j], Reachable(start, position))
  }

  /** Lines of a list of `n` commands. */
  function ListLines(n: nat): nat {
    n + 2
  }

  /** Lines written by the lists from item `i` on. */
  function LinesNeeded(sent: seq<Item>, reachable: bool, i: nat): nat
    requires i <= |sent|
    decreases |sent| - i
  {
    if i == |sent| then 0
    else
      var f := FirstBad(sent[i..], reachable);
      ListLines(|sent| - i) + if i + f < |sent| && f <= U8_MAX then LinesNeeded(sent, reachable, i + f + 1) else 0
  }

  /** The lists up to some item were run, and nothing behind it. */
  ghost predicate StoppedShort(start: Player, sent: seq<Item>, position: Option<QueuePosition>, p: Player, errors: nat)
    requires start.Valid()
  {
    exists i: nat | i < |sent| :: Progress(start, sent, position, i, p, errors)
  }

  /** What a call with items promises: the error of a broken socket comes exactly when there are
      fewer lines than needed, and then the items of whole lists were tried and no others. */
  ghost predicate Attempted(p: Player, items: seq<Item>, position: Option<QueuePosition>, replace: bool, lines: nat,
                            r: Result<(), MpdError>, after: Player, errors: nat)
    requires p.Valid()
  {
    var start, sent := Start(p, replace), SendOrder(items, position);
    var needed := LinesNeeded(sent, Reachable(start, position), 0) + if replace then 1 else 0;
    && (r == Failure(Io) <==> lines < needed)
    && (r == Failure(Io) && replace && lines == 0 ==> after == p && errors == 0)
    && (r == Failure(Io) && !(replace && lines == 0) ==> StoppedShort(start, sent, position, after, errors))
    && (r != Failure(Io) ==> Enqueued(start, sent, position, r, after, errors))
  }

  /** The old songs are all there, in order, with at most one block among them. */
  ghost predicate KeepsQueue(before: seq<string>, after: seq<string>) {
    exists at: nat, block | at <= |before| :: after == before[..at] + block + before[at..]
  }

  /** And the current song is still the current one. */
  ghost predicate KeepsOld(before: Player, after: Player)
    requires before.Valid() && after.Valid()
  {
    && KeepsQueue(before.queue, after.queue)
    && before.current.Some? == after.current.Some?
    && (before.current.Some? ==> after.queue[after.current.value] == before.queue[before.current.value])
  }

  lemma InsertKeepsOld(p: Player, at: nat, songs: seq<string>)
    requires p.Valid() && at <= |p.queue|
    ensures Insert(p, at, songs).Valid() && KeepsOld(p, Insert(p, at, songs))
  {
    assert Insert(p, at, songs).queue == p.queue[..at] + songs + p.queue[at..];
  }

  /** Items can only add. */
  lemma ItemsKeepOld(p: Player, sent: seq<Item>, position: Option<QueuePosition>)
    requires p.Valid()
    ensures KeepsOld(p, ExecuteAll(p, sent, position))
  {
    OneBlock(p, sent, position);
    if Resolve(position, p).Some? {
      InsertKeepsOld(p, Resolve(position, p).value, SongsOf(if ShouldReverse(position) then Reverse(sent) else sent));
    } else {
      InsertKeepsOld(p, 0, []);
      InsertNothing(p, 0);
    }
  }

  /** Only the end and position 0 are there in an empty queue. */
  predicate InEmptyQueue(position: Option<QueuePosition>) {
    position.None? || position.value == Absolute(0)
  }

  /** What is left after a replacing call: songs of the items and nothing else, and none is current. */
  ghost predicate OnlyItems(items: seq<Item>, position: Option<QueuePosition>, after: Player) {
    && after.current.None?
    && exists tried: seq<Item> | tried <= SendOrder(items, position) :: after == ExecuteAll(Player([], None), tried, position)
  }

  lemma ReplacedMeaning(p: Player, items: seq<Item>, position: Option<QueuePosition>, lines: nat,
                        r: Result<(), MpdError>, after: Player, errors: nat)
    requires p.Valid() && Attempted(p, items, position, true, lines, r, after, errors)
    ensures r == Failure(Io) && lines == 0 ==> after == p
    ensures lines > 0 ==> OnlyItems(items, position, after)
    ensures r.Success? ==> after == Player(if InEmptyQueue(position) then SongsOf(items) else [], None)
    ensures r.Success? && errors == 0 && items != [] ==> InEmptyQueue(position)
  {
    var empty := Player([], None);
    if lines > 0 {
      var tried := TriedItems(empty, items, position, r, after, errors);
      ItemsKeepOld(empty, tried, position);
    }
    if r.Success? {
      EnqueuedMeaning(empty, items, position, r, after, errors);
      if InEmptyQueue(position) { assert [] + SongsOf(items) + [] == SongsOf(items); }
    }
  }

  lemma KeptMeaning(p: Player, items: seq<Item>, position: Option<QueuePosition>, lines: nat,
                    r: Result<(), MpdError>, after: Player, errors: nat)
    requires p.Valid() && Attempted(p, items, position, false, lines, r, after, errors)
    ensures after.Valid() && KeepsOld(p, after)
  {
    var tried := TriedItems(p, items, position, r, after, errors);
    ItemsKeepOld(p, tried, position);
  }

  /** However a call ends, some of the first items have been tried and no others. */
  lemma TriedItems(start: Player, items: seq<Item>, position: Option<QueuePosition>,
                   r: Result<(), MpdError>, after: Player, errors: nat) returns (tried: seq<Item>)
    requires start.Valid()
    requires var sent := SendOrder(items, position);
      StoppedShort(start, sent, position, after, errors) || Enqueued(start, sent, position, r, after, errors)
    ensures tried <= SendOrder(items, position) && after == ExecuteAll(start, tried, position)
  {
    var sent := SendOrder(items, position);
    if StoppedShort(start, sent, position, after, errors) {
      var i: nat :| i < |sent| && Progress(start, sent, position, i, after, errors);
      tried := sent[..i];
    } else if r.Success? {
      tried := sent;
    } else {
      var j: nat :| LateFailure(sent, Reachable(start, position), j) && after == ExecuteAll(start, sent[..j], position);
      tried := sent[..j];
    }
  }

  /** What a call promises on a socket that does not break. */
  ghost predicate Enqueued(start: Player, sent: seq<Item>, position: Option<QueuePosition>, r: Result<(), MpdError>, p: Player, errors: nat)
    requires start.Valid()
  {
    && (r.Success? <==> forall j: nat :: !LateFailure(sent, Reachable(start, position), j))
    && (r.Success? ==> p == ExecuteAll(start, sent, position) && errors == CountBad(sent, Reachable(start, position)))
    && (r.Failure? ==> r.error == Parse && GaveUp(start, sent, position, p, errors))
  }

  /** The three ways one command list can end. */
  lemma BatchStep(start: Player, sent: seq<Item>, position: Option<QueuePosition>, i: nat, p: Player, errors: nat)
    returns (f: nat)
    requires start.Valid() && p.Valid() && i < |sent|
    requires Progress(start, sent, position, i, p, errors)
    ensures f <= |sent[i..]| && f == FirstBad(sent[i..], Reachable(start, position))
    ensures RunList(p, sent[i..], position, 0).1 == if f == |sent[i..]| then AllOk else FailedAt(sent[i..][f], f)
    ensures var p' := RunList(p, sent[i..], position, 0).0;
      && (f == |sent[i..]| ==> Progress(start, sent, position, |sent|, p', errors))
      && (f < |sent[i..]| && f <= U8_MAX ==> Progress(start, sent, position, i + 1 + f, p', errors + 1))
      && (f < |sent[i..]| && f > U8_MAX ==> GaveUp(start, sent, position, p', errors))
  {
    f := BatchResult(start, sent, position, i, p);
    CountUpTo(sent, Reachable(start, position), i, f);
    if i + f < |sent| { FailureSkipped(start, sent, position, i + f); }
    NotLateBefore(sent, Reachable(start, position), i, f);
    var p' := RunList(p, sent[i..], position, 0).0;
    if f == |sent[i..]| {
      assert i + f == |sent|;
    } else if f <= U8_MAX {
      assert Progress(start, sent, position, i + 1 + f, p', errors + 1);
    } else {
      assert LateFailure(sent, Reachable(start, position), i + f);
      assert GaveUp(start, sent, position, p', errors);
    }
  }

  /** The queue and the reply after the list of everything from `i` on. */
  lemma BatchResult(start: Player, sent: seq<Item>, position: Option<QueuePosition>, i: nat, p: Player)
    returns (f: nat)
    requires start.Valid() && i < |sent| && p == ExecuteAll(start, sent[..i], position)
    ensures f == FirstBad(sent[i..], Reachable(start, position)) && f <= |sent[i..]|
    ensures RunList(p, sent[i..], position, 0).0 == ExecuteAll(start, sent[..i + f], position)
    ensures RunList(p, sent[i..], position, 0).1 == if f == |sent[i..]| then AllOk else FailedAt(sent[i..][f], f)
  {
    ReachableAlong(start, sent[..i], position);
    RunListOutcome(p, sent[i..], position, 0);
    f := FirstBad(sent[i..], Reachable(start, position));
    ExecuteFirstIsPrefix(p, sent[i..], position, f);
    TriedUpTo(start, sent, position, i, f);
  }

  /** What the position is resolved in. */
  function Start(p: Player, replace: bool): Player {
    if replace then Player([], None) else p
  }

  lemma SendOrderKeepsItems(items: seq<Item>, position: Option<QueuePosition>)
    ensures |SendOrder(items, position)| == |items|
    ensures Printable(items) ==> Printable(SendOrder(items, position))
  {
    forall x ensures x in Reverse(items) <==> x in items { ReverseMembers(items, x); }
  }

  lemma NotLateBefore(sent: seq<Item>, reachable: bool, i: nat, f: nat)
    requires i + f <= |sent| && (i == 0 || BadAt(sent, reachable, i - 1))
    requires forall k | i <= k < i + f :: !BadAt(sent, reachable, k)
    requires forall j: nat | j < i :: !LateFailure(sent, reachable, j)
    ensures forall j: nat | j < i + f :: !LateFailure(sent, reachable, j)
    ensures f <= U8_MAX ==> !LateFailure(sent, reachable, i + f)
    ensures f > U8_MAX && BadAt(sent, reachable, i + f) ==> LateFailure(sent, reachable, i + f)
  {
    if f <= U8_MAX && i > 0 {
      assert BadAt(sent, reachable, i - 1);
    }
  }

  /** Headline: when the call succeeds, the songs that could be added are one block in the queue,
      in order, where the position pointed; and with the position out of range nothing changes
      and every item is an error. */
  lemma EnqueuedMeaning(start: Player, items: seq<Item>, position: Option<QueuePosition>,
                        r: Result<(), MpdError>, p: Player, errors: nat)
    requires start.Valid() && r.Success?
    requires Enqueued(start, SendOrder(items, position), position, r, p, errors)
    ensures Reachable(start, position) ==>
      && p == Insert(start, Resolve(position, start).value, SongsOf(items))
      && errors == CountBad(items, true)
    ensures !Reachable(start, position) ==> p == start && errors == |items|
  {
    SendOrderKeepsItems(items, position);
    if Reachable(start, position) {
      SpliceInOriginalOrder(start, items, position);
      CountReverse(items);
    } else {
      NothingReached(start, SendOrder(items, position), position);
    }
  }

  lemma NothingReached(start: Player, sent: seq<Item>, position: Option<QueuePosition>)
    requires start.Valid() && !Reachable(start, position)
    ensures ExecuteAll(start, sent, position) == start && CountBad(sent, false) == |sent|
  {
    OneBlock(start, sent, position);
    AllBad(sent);
  }

  lemma {:induction false} AllBad(sent: seq<Item>)
    ensures CountBad(sent, false) == |sent|
  {
    if sent != [] { AllBad(sent[..|sent| - 1]); }
  }

  lemma {:induction false} CountConcat(a: seq<Item>, b: seq<Item>)
    ensures CountBad(a + b, true) == CountBad(a, true) + CountBad(b, true)
  {
    if b == [] {
      assert a + b == a;
    } else {
      CountConcat(a, b[..|b| - 1]);
      assert (a + b)[..|a + b| - 1] == a + b[..|b| - 1];
      assert (a + b)[|a + b| - 1] == b[|b| - 1];
    }
  }

  lemma {:induction false} CountReverse(items: seq<Item>)
    ensures CountBad(Reverse(items), true) == CountBad(items, true)
  {
    if items != [] {
      ReverseFirst(items);
      CountReverse(items[1..]);
      CountConcat(Reverse(items[1..]), [items[0]]);
      CountConcat([items[0]], items[1..]);
      assert items == [items[0]] + items[1..];
    }
  }

  /** The first failure too far behind. */
  ghost predicate FirstLate(sent: seq<Item>, reachable: bool, j: nat) {
    LateFailure(sent, reachable, j) && forall k: nat | k < j :: !LateFailure(sent, reachable, k)
  }

  /** Where a call that gives up gives up: at its first late failure. */
  lemma GivesUpAt(start: Player, sent: seq<Item>, position: Option<QueuePosition>,
                  r: Result<(), MpdError>, p: Player, errors: nat, j: nat)
    requires start.Valid()
    ensures Enqueued(start, sent, position, r, p, errors) && FirstLate(sent, Reachable(start, position), j) ==>
      && r == Failure(Parse) && p == ExecuteAll(start, sent[..j], position)
      && errors == CountBad(sent[..j], Reachable(start, position))
  {
    if Enqueued(start, sent, position, r, p, errors) && FirstLate(sent, Reachable(start, position), j) {
      var i: nat :| FirstLate(sent, Reachable(start, position), i)
        && p == ExecuteAll(start, sent[..i], position) && errors == CountBad(sent[..i], Reachable(start, position));
      OneFirstLate(sent, Reachable(start, position), i, j);
    }
  }

  lemma OneFirstLate(sent: seq<Item>, reachable: bool, i: nat, j: nat)
    requires FirstLate(sent, reachable, i) && FirstLate(sent, reachable, j)
    ensures i == j
  {
    assert LateFailure(sent, reachable, i) && LateFailure(sent, reachable, j);
  }

  /** The limit is real: any failure sent behind more than 255 items that succeed ends the call,
      and whatever was sent behind it, good or not, is never added. */
  lemma LateFailureLosesRest(start: Player, first: seq<Item>, bad: Item, rest: seq<Item>, position: Option<QueuePosition>,
                             r: Result<(), MpdError>, p: Player, errors: nat)
    requires start.Valid() && Reachable(start, position)
    requires |first| > U8_MAX && (forall i | 0 <= i < |first| :: first[i].outcome.Adds?) && bad.outcome.Refuses?
    requires Enqueued(start, first + [bad] + rest, position, r, p, errors)
    ensures r == Failure(Parse) && errors == 0 && p == ExecuteAll(start, first, position)
  {
    var sent := first + [bad] + rest;
    assert forall k | 0 <= k < |first| :: sent[k] == first[k] && !BadAt(sent, true, k);
    assert sent[|first|] == bad && LateFailure(sent, true, |first|);
    assert forall k: nat | k < |first| :: !LateFailure(sent, true, k) by {
      assert forall k: nat | k < |first| :: !BadAt(sent, true, k);
    }
    GivesUpAt(start, sent, position, r, p, errors, |first|);
    NoneBad(sent, true, 0, |first|);
    assert sent[..|first|] == first && sent[..0] == [];
  }

  /** `Command::Add`: one command at a time, stopping at the first error; the same order. */
  method AddFiles(player: Player, files: seq<Item>, position: Option<QueuePosition>)
    returns (r: Result<(), MpdError>, after: Player)
    requires player.Valid()
    ensures r.Success? <==> forall k :: !BadAt(files, Reachable(player, position), k)
    ensures r.Success? && Reachable(player, position) ==>
      after == Insert(player, Resolve(position, player).value, SongsOf(files))
    ensures r.Failure? ==>
      var sent := SendOrder(files, position);
      after == ExecuteAll(player, sent[..FirstBad(sent, Reachable(player, position))], position)
  {
    var sent := if ShouldReverse(position) then Reverse(files) else files;
    BadInAnyOrder(files, position, Reachable(player, position));
    after := player;
    assert sent[..0] == [];
    for i := 0 to |sent|
      invariant AddedUpTo(player, sent, position, i, after)
    {
      AddOne(player, sent, position, i, after);
      if Fails(after, sent[i], position) {
        assert BadAt(SendOrder(files, position), Reachable(player, position), i);
        r := Failure(Generic);
        return;
      }
      after := Execute(after, sent[i], position);
    }
    assert sent[..|sent|] == sent;
    if Reachable(player, position) { SpliceInOriginalOrder(player, files, position); }
    r := Success(());
  }

  /** None of the first `i` failed, and all were added. */
  predicate AddedUpTo(player: Player, sent: seq<Item>, position: Option<QueuePosition>, i: nat, after: Player)
    requires player.Valid() && i <= |sent|
  {
    && after == ExecuteAll(player, sent[..i], position)
    && forall k | 0 <= k < i :: !BadAt(sent, Reachable(player, position), k)
  }

  lemma AddOne(player: Player, sent: seq<Item>, position: Option<QueuePosition>, i: nat, after: Player)
    requires player.Valid() && i < |sent| && AddedUpTo(player, sent, position, i, after)
    ensures after.Valid() && (Fails(after, sent[i], position) <==> BadAt(sent, Reachable(player, position), i))
    ensures Fails(after, sent[i], position) ==> FirstBad(sent, Reachable(player, position)) == i
    ensures !Fails(after, sent[i], position) ==>
      AddedUpTo(player, sent, position, i + 1, Execute(after, sent[i], position))
  {
    ReachableAlong(player, sent[..i], position);
    ExecuteAllConcat(player, sent[..i], [sent[i]], position);
    assert sent[..i + 1] == sent[..i] + [sent[i]] && [sent[i]][1..] == [];
  }

  lemma BadInAnyOrder(files: seq<Item>, position: Option<QueuePosition>, reachable: bool)
    ensures (forall k :: !BadAt(files, reachable, k)) <==> (forall k :: !BadAt(SendOrder(files, position), reachable, k))
  {
    var sent := SendOrder(files, position);
    forall x ensures x in Reverse(files) <==> x in files { ReverseMembers(files, x); }
    if k :| BadAt(files, reachable, k) {
      assert files[k] in sent;
      var m :| 0 <= m < |sent| && sent[m] == files[k];
      assert BadAt(sent, reachable, m);
    }
    if k :| BadAt(sent, reachable, k) {
      assert sent[k] in files;
      var m :| 0 <= m < |files| && files[m] == sent[k];
      assert BadAt(files, reachable, m);
    }
  }
}
