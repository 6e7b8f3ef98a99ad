/**
 The request thread's inner loop: requests are handled first come first served, new ones are
 collected before each, and a query is skipped if one of the same class waits behind it.
 */
module Coalesce {
  import opened Wrappers

  datatype Request =
    | Query(id: string, replaceId: Option<string>, target: Option<nat>)
    | Command(action: nat)
    | QuerySync(question: nat)

  /** `MpdQuery::should_be_skipped` with `should_skip_request`'s test of the variants. */
  predicate Replaces(r: Request, later: Request) {
    && r.Query? && later.Query?
    && r.replaceId.Some? && later.replaceId.Some?
    && r.id == later.id && r.replaceId == later.replaceId && r.target == later.target
  }

  predicate ShouldSkip(buffer: seq<Request>, r: Request) {
    exists k | 0 <= k < |buffer| :: Replaces(r, buffer[k])
  }

  /** Everything that `try_recv` delivers in the first `n` turns. */
  function Delivered(arrivals: seq<seq<Request>>, n: nat): seq<Request> {
    if n == 0 then []
    else Delivered(arrivals, n - 1) + if n - 1 < |arrivals| then arrivals[n - 1] else []
  }

  /** All requests of the batch known after `n` turns, in order of arrival. */
  function Known(first: Request, arrivals: seq<seq<Request>>, n: nat): seq<Request> {
    [first] + Delivered(arrivals, n)
  }

  /** The loop reaches turn `n`: there was a request to take at every turn before. */
  predicate Lasts(first: Request, arrivals: seq<seq<Request>>, n: nat) {
    n == 0 || (Lasts(first, arrivals, n - 1) && |Known(first, arrivals, n - 1)| >= n)
  }

  lemma {:induction false} LastsThrough(first: Request, arrivals: seq<seq<Request>>, n: nat, i: nat)
    requires Lasts(first, arrivals, n) && i < n
    ensures |Known(first, arrivals, i)| > i && Lasts(first, arrivals, i + 1)
  {
    if i < n - 1 { LastsThrough(first, arrivals, n - 1, i); }
  }

  /** The batch ends when every request known has been taken, after `n` turns. */
  predicate Ends(first: Request, arrivals: seq<seq<Request>>, n: nat) {
    |Known(first, arrivals, n)| == n && Lasts(first, arrivals, n)
  }

  /** Request `i` of the batch. */
  function At(first: Request, arrivals: seq<seq<Request>>, i: nat): Request
    requires |Known(first, arrivals, i)| > i
  {
    Known(first, arrivals, i)[i]
  }

  /** Request `i` is handled: nothing behind it, when its turn comes, replaces it. */
  predicate Kept(first: Request, arrivals: seq<seq<Request>>, i: nat)
    requires |Known(first, arrivals, i)| > i
  {
    var known := Known(first, arrivals, i + 1);
    forall j | i < j < |known| :: !Replaces(At(first, arrivals, i), known[j])
  }

  /** What is handled in the first `n` turns, in order. */
  function HandledFirst(first: Request, arrivals: seq<seq<Request>>, n: nat): seq<Request>
    requires Lasts(first, arrivals, n)
  {
    if n == 0 then []
    else HandledFirst(first, arrivals, n - 1)
         + if Kept(first, arrivals, n - 1) then [At(first, arrivals, n - 1)] else []
  }

  lemma KnownGrows(first: Request, arrivals: seq<seq<Request>>, n: nat)
    ensures Known(first, arrivals, n + 1)
         == Known(first, arrivals, n) + if n < |arrivals| then arrivals[n] else []
  {
  }

  lemma {:induction false} KnownStays(first: Request, arrivals: seq<seq<Request>>, m: nat, n: nat)
    requires m <= n
    ensures Known(first, arrivals, m) <= Known(first, arrivals, n)
    decreases n
  {
    if m < n { KnownStays(first, arrivals, m, n - 1); }
  }

  /** The loop, for every arrival schedule: `arrivals[k]` is what has come in by turn k. */
  method HandleBatch(first: Request, arrivals: seq<seq<Request>>) returns (handled: seq<Request>, turns: nat)
    ensures Ends(first, arrivals, turns)
    ensures handled == HandledFirst(first, arrivals, turns)
  {
    var buffer := [first];
    handled := [];
    turns := 0;
    assert Known(first, arrivals, 0) == [first];
    while buffer != []
      invariant |Known(first, arrivals, turns)| >= turns
      invariant buffer == Known(first, arrivals, turns)[turns..]
      invariant Lasts(first, arrivals, turns)
      invariant handled == HandledFirst(first, arrivals, turns)
      decreases if turns < |arrivals| then |arrivals| - turns else 0, |buffer|
    {
      TurnShape(first, arrivals, turns, buffer);
      var request := buffer[0];
      buffer := buffer[1..];
      if turns < |arrivals| {
        buffer := buffer + arrivals[turns];
      }
      TurnResult(first, arrivals, turns, buffer);
      if !ShouldSkip(buffer, request) {
        handled := handled + [request];
      }
      turns := turns + 1;
    }
  }

  /** What a turn adds to the requests handled. */
  lemma TurnResult(first: Request, arrivals: seq<seq<Request>>, turn: nat, buffer: seq<Request>)
    requires Lasts(first, arrivals, turn) && |Known(first, arrivals, turn)| > turn
    requires |Known(first, arrivals, turn + 1)| > turn && buffer == Known(first, arrivals, turn + 1)[turn + 1..]
    ensures Lasts(first, arrivals, turn + 1)
    ensures HandledFirst(first, arrivals, turn + 1) == HandledFirst(first, arrivals, turn)
         + if ShouldSkip(buffer, At(first, arrivals, turn)) then [] else [At(first, arrivals, turn)]
  {
    SkipMeansNotKept(first, arrivals, turn, buffer);
  }

  /** Taking one request and collecting the new ones leaves what is known behind that request. */
  lemma TurnShape(first: Request, arrivals: seq<seq<Request>>, turn: nat, buffer: seq<Request>)
    requires |Known(first, arrivals, turn)| > turn && buffer == Known(first, arrivals, turn)[turn..]
    ensures buffer[0] == At(first, arrivals, turn)
    ensures |Known(first, arrivals, turn + 1)| > turn
    ensures buffer[1..] + (if turn < |arrivals| then arrivals[turn] else [])
         == Known(first, arrivals, turn + 1)[turn + 1..]
    ensures turn >= |arrivals| ==> buffer[1..] == Known(first, arrivals, turn + 1)[turn + 1..]
  {
    KnownGrows(first, arrivals, turn);
  }

  lemma SkipMeansNotKept(first: Request, arrivals: seq<seq<Request>>, i: nat, buffer: seq<Request>)
    requires |Known(first, arrivals, i)| > i
    requires |Known(first, arrivals, i + 1)| > i && buffer == Known(first, arrivals, i + 1)[i + 1..]
    ensures ShouldSkip(buffer, At(first, arrivals, i)) <==> !Kept(first, arrivals, i)
  {
    var known := Known(first, arrivals, i + 1);
    var r := At(first, arrivals, i);
    forall j | i < j < |known| ensures known[j] == buffer[j - i - 1] {}
    if ShouldSkip(buffer, r) {
      var k :| 0 <= k < |buffer| && Replaces(r, buffer[k]);
      assert known[k + i + 1] == buffer[k];
    }
  }

  // ---- what the loop guarantees

  /** Commands, synchronous queries and queries without a replace id are always handled. */
  lemma NeverSkipped(first: Request, arrivals: seq<seq<Request>>, i: nat)
    requires |Known(first, arrivals, i)| > i
    requires !At(first, arrivals, i).Query? || At(first, arrivals, i).replaceId.None?
    ensures Kept(first, arrivals, i)
  {
  }

  /** A request is passed over if and only if it is a query with a replace id and the same query,
      with this id, this replace id and this target, waits behind it. */
  lemma SkippedExactly(buffer: seq<Request>, r: Request)
    ensures ShouldSkip(buffer, r) <==> r.Query? && r.replaceId.Some? && r in buffer
  {
    if r in buffer {
      var k :| 0 <= k < |buffer| && buffer[k] == r;
      assert r.Query? && r.replaceId.Some? ==> Replaces(r, buffer[k]);
    }
  }

  /** A skipped query has a later one of its class in the same batch: the same id, replace id and
      target. */
  lemma SkippedHasSuccessor(first: Request, arrivals: seq<seq<Request>>, n: nat, i: nat) returns (j: nat)
    requires Ends(first, arrivals, n) && i < n && |Known(first, arrivals, i)| > i
    requires !Kept(first, arrivals, i)
    ensures i < j < n && |Known(first, arrivals, j)| > j
    ensures At(first, arrivals, j) == At(first, arrivals, i)
    ensures Replaces(At(first, arrivals, i), At(first, arrivals, j))
  {
    var known := Known(first, arrivals, i + 1);
    j :| i < j < |known| && Replaces(At(first, arrivals, i), known[j]);
    KnownStays(first, arrivals, i + 1, n);
    KnownStays(first, arrivals, i + 1, j);
    LastsThrough(first, arrivals, n, j);
  }

  /** So the last of every class is handled: behind any request of the batch, or at it, stands a
      handled one that does the same. */
  lemma {:induction false} LastOfClassHandled(first: Request, arrivals: seq<seq<Request>>, n: nat, i: nat) returns (j: nat)
    requires Ends(first, arrivals, n) && i < n && |Known(first, arrivals, i)| > i
    ensures i <= j < n && |Known(first, arrivals, j)| > j
    ensures At(first, arrivals, j) == At(first, arrivals, i)
    ensures j == i || Replaces(At(first, arrivals, i), At(first, arrivals, j))
    ensures At(first, arrivals, j) in HandledFirst(first, arrivals, n)
    decreases n - i
  {
    if Kept(first, arrivals, i) {
      j := i;
      KeptIsHandled(first, arrivals, n, i);
    } else {
      var k := SkippedHasSuccessor(first, arrivals, n, i);
      j := LastOfClassHandled(first, arrivals, n, k);
    }
  }

  lemma {:induction false} KeptIsHandled(first: Request, arrivals: seq<seq<Request>>, n: nat, j: nat)
    requires Lasts(first, arrivals, n) && j < n && |Known(first, arrivals, j)| > j
    requires Kept(first, arrivals, j)
    ensures At(first, arrivals, j) in HandledFirst(first, arrivals, n)
    decreases n
  {
    var last := At(first, arrivals, n - 1);
    if j < n - 1 {
      KeptIsHandled(first, arrivals, n - 1, j);
    } else {
      assert last in [last];
    }
  }

  /** `order` picks requests of the batch in the order of their arrival. */
  predicate Ascending(order: seq<nat>, n: nat) {
    && (forall i, j | 0 <= i < j < |order| :: order[i] < order[j])
    && (forall i | 0 <= i < |order| :: order[i] < n)
  }

  /** The requests that `order` picks out of the batch `known`. */
  function Pick(known: seq<Request>, order: seq<nat>): seq<Request>
    requires Ascending(order, |known|)
  {
    seq(|order|, i requires 0 <= i < |order| => known[order[i]])
  }

  /** The handled requests are a subsequence of the arrivals. */
  lemma {:induction false} HandledInOrder(first: Request, arrivals: seq<seq<Request>>, n: nat) returns (order: seq<nat>)
    requires Lasts(first, arrivals, n)
    ensures Ascending(order, n) && n <= |Known(first, arrivals, n)|
    ensures HandledFirst(first, arrivals, n) == Pick(Known(first, arrivals, n), order)
    decreases n
  {
    if n == 0 {
      order := [];
    } else {
      var before := HandledInOrder(first, arrivals, n - 1);
      var known, more := Known(first, arrivals, n - 1), Known(first, arrivals, n);
      KnownGrows(first, arrivals, n - 1);
      PickStays(known, more, before);
      assert At(first, arrivals, n - 1) == more[n - 1];
      if Kept(first, arrivals, n - 1) {
        order := before + [n - 1];
        PickOne(more, before, n - 1);
      } else {
        order := before;
      }
    }
  }

  lemma PickStays(known: seq<Request>, more: seq<Request>, order: seq<nat>)
    requires known <= more && Ascending(order, |known|)
    ensures Ascending(order, |more|) && Pick(known, order) == Pick(more, order)
  {
  }

  lemma PickOne(known: seq<Request>, order: seq<nat>, i: nat)
    requires Ascending(order, i) && i < |known|
    ensures Ascending(order + [i], i + 1) && Ascending(order, |known|) && Ascending(order + [i], |known|)
    ensures Pick(known, order + [i]) == Pick(known, order) + [known[i]]
  {
  }
}
