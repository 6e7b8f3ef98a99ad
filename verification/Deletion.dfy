/**
 Deleting marked positions: ranges or single positions, always from the highest down, one by
 one or in a command list.
 */
module Deletion {
  import opened Wrappers
  import opened Ranges
  import opened Sequences

  /** MPD's `START:END` or single position. */
  datatype SingleOrRange = SingleOrRange(start: nat, end: Option<nat>)

  /** `From<RangeInclusive>`: the end is excluded. */
  function FromRun(r: Run): SingleOrRange {
    SingleOrRange(r.start, Some(r.end + 1))
  }

  function Single(i: nat): SingleOrRange {
    SingleOrRange(i, None)
  }

  /** The first position behind the deleted ones. */
  function Behind(r: SingleOrRange): nat {
    if r.end.Some? then r.end.value else r.start + 1
  }

  function Delete<T>(q: seq<T>, r: SingleOrRange): seq<T>
    requires r.start <= Behind(r) <= |q|
  {
    q[..r.start] + q[Behind(r)..]
  }

  predicate Fits(runs: seq<Run>, n: nat) {
    forall i | 0 <= i < |runs| :: runs[i].end < n
  }

  /** The runs deleted one after the other. */
  function DeleteAll<T>(q: seq<T>, runs: seq<Run>): seq<T>
    requires Descending(runs) && Fits(runs, |q|)
    decreases |runs|
  {
    if runs == [] then q else DeleteAll(Delete(q, FromRun(runs[0])), runs[1..])
  }

  /** The first `n` elements without those the runs cover, in order. */
  function Uncovered<T>(q: seq<T>, runs: seq<Run>, n: nat): seq<T>
    requires n <= |q|
  {
    if n == 0 then [] else Uncovered(q, runs, n - 1) + if Covers(runs, n - 1) then [] else [q[n - 1]]
  }

  /** Deleting below leaves what stands above alone. */
  lemma {:induction false} DeleteBelow<T>(a: seq<T>, b: seq<T>, runs: seq<Run>)
    requires Descending(runs) && Fits(runs, |a|)
    ensures Fits(runs, |a + b|) && DeleteAll(a + b, runs) == DeleteAll(a, runs) + b
    decreases |runs|
  {
    if runs != [] {
      var r := FromRun(runs[0]);
      assert Delete(a + b, r) == Delete(a, r) + b;
      DeleteBelow(Delete(a, r), b, runs[1..]);
    }
  }

  lemma {:induction false} UncoveredPrefix<T>(q: seq<T>, p: seq<T>, run: Run, runs: seq<Run>, n: nat)
    requires n <= run.start && n <= |p| && p <= q
    ensures Uncovered(q, [run] + runs, n) == Uncovered(p, runs, n)
  {
    if n > 0 {
      UncoveredPrefix(q, p, run, runs, n - 1);
      CoversPrepend(run, runs, n - 1);
    }
  }

  lemma {:induction false} UncoveredInside<T>(q: seq<T>, run: Run, runs: seq<Run>, n: nat)
    requires run.start <= n <= run.end + 1 && n <= |q|
    ensures Uncovered(q, [run] + runs, n) == Uncovered(q, [run] + runs, run.start)
    decreases n
  {
    if n > run.start {
      UncoveredInside(q, run, runs, n - 1);
      CoversPrepend(run, runs, n - 1);
    }
  }

  lemma {:induction false} UncoveredAbove<T>(q: seq<T>, runs: seq<Run>, lo: nat, n: nat)
    requires lo <= n <= |q| && forall x: nat | lo <= x < n :: !Covers(runs, x)
    ensures Uncovered(q, runs, n) == Uncovered(q, runs, lo) + q[lo..n]
    decreases n
  {
    if n > lo {
      UncoveredAbove(q, runs, lo, n - 1);
      assert q[lo..n] == q[lo..n - 1] + [q[n - 1]];
    }
  }

  /** Deleting from the highest down removes exactly what the runs cover in the original list. */
  lemma {:induction false} DeleteAllKeepsUncovered<T>(q: seq<T>, runs: seq<Run>)
    requires Descending(runs) && Fits(runs, |q|)
    ensures DeleteAll(q, runs) == Uncovered(q, runs, |q|)
    decreases |runs|
  {
    if runs == [] {
      UncoveredAbove(q, [], 0, |q|);
      assert q[0..|q|] == q;
    } else {
      var r, rs := runs[0], runs[1..];
      assert runs == [r] + rs;
      var p := q[..r.start];
      assert forall i | 0 <= i < |rs| :: rs[i] == runs[i + 1];
      DeleteBelow(p, q[r.end + 1..], rs);
      DeleteAllKeepsUncovered(p, rs);
      HighestUncovered(q, r, rs);
    }
  }

  /** What the highest run leaves: what the others leave below it, and everything above. */
  lemma HighestUncovered<T>(q: seq<T>, r: Run, rs: seq<Run>)
    requires Descending([r] + rs) && r.end < |q| && r.start <= r.end
    ensures Uncovered(q, [r] + rs, |q|) == Uncovered(q[..r.start], rs, r.start) + q[r.end + 1..]
  {
    UncoveredPrefix(q, q[..r.start], r, rs, r.start);
    UncoveredInside(q, r, rs, r.end + 1);
    AboveHighest(q, r, rs);
  }

  lemma AboveHighest<T>(q: seq<T>, r: Run, rs: seq<Run>)
    requires Descending([r] + rs) && r.end < |q| && r.start <= r.end
    ensures Uncovered(q, [r] + rs, |q|) == Uncovered(q, [r] + rs, r.end + 1) + q[r.end + 1..]
  {
    forall x: nat | r.end + 1 <= x < |q| ensures !Covers([r] + rs, x) { NoneAbove(r, rs, x); }
    UncoveredAbove(q, [r] + rs, r.end + 1, |q|);
    TailFrom(q, r.end + 1);
  }

  lemma NoneAbove(r: Run, rs: seq<Run>, x: nat)
    requires Descending([r] + rs) && r.start <= r.end < x
    ensures !Covers([r] + rs, x)
  {
    var runs := [r] + rs;
    forall i | 0 <= i < |rs| ensures rs[i].end < r.start {
      assert runs[0] == r && runs[i + 1] == rs[i];
    }
    CoversPrepend(r, rs, x);
  }

  lemma TailFrom<T>(q: seq<T>, n: nat)
    requires n <= |q|
    ensures q[n..|q|] == q[n..]
  {
  }

  /** The elements at unmarked positions, in order. */
  function Unmarked<T>(q: seq<T>, marked: seq<nat>, n: nat): seq<T>
    requires n <= |q|
  {
    if n == 0 then [] else Unmarked(q, marked, n - 1) + if n - 1 in marked then [] else [q[n - 1]]
  }

  lemma {:induction false} UncoveredIsUnmarked<T>(q: seq<T>, runs: seq<Run>, marked: seq<nat>, n: nat)
    requires n <= |q| && forall x: nat :: Covers(runs, x) <==> x in marked
    ensures Uncovered(q, runs, n) == Unmarked(q, marked, n)
  {
    if n > 0 { UncoveredIsUnmarked(q, runs, marked, n - 1); }
  }

  lemma MarkedFits(elements: seq<nat>, n: nat)
    requires Sorted(elements) && forall x | x in elements :: x < n
    ensures Descending(Backward(None, elements)) && Fits(Backward(None, elements), n)
  {
    BackwardDescends(None, elements);
    var runs := Backward(None, elements);
    forall i | 0 <= i < |runs| ensures runs[i].end < n {
      assert Covers(runs, runs[i].end);
      BackwardCovers(None, elements, runs[i].end);
    }
  }

  /** What is left of the deletions leads to the same queue. */
  predicate OnTheWay<T(==)>(q: seq<T>, due: seq<Run>, goal: seq<T>) {
    Descending(due) && Fits(due, |q|) && DeleteAll(q, due) == goal
  }

  lemma OneDeletion<T>(q: seq<T>, due: seq<Run>, goal: seq<T>)
    requires OnTheWay(q, due, goal) && due != []
    ensures due[0].start <= due[0].end < |q|
    ensures OnTheWay(Delete(q, FromRun(due[0])), due[1..], goal)
  {
  }

  lemma MarkedGoal<T>(queue: seq<T>, marked: seq<nat>)
    requires Sorted(marked) && forall x | x in marked :: x < |queue|
    ensures OnTheWay(queue, Backward(None, marked), Unmarked(queue, marked, |queue|))
  {
    var runs := Backward(None, marked);
    MarkedFits(marked, |queue|);
    DeleteAllKeepsUncovered(queue, runs);
    forall x: nat ensures Covers(runs, x) <==> x in marked { BackwardCovers(None, marked, x); }
    UncoveredIsUnmarked(queue, runs, marked, |queue|);
  }

  /** Deleting the marked positions of the queue: the ranges from the back, one command each. */
  method DeleteMarked<T(==)>(queue: seq<T>, marked: seq<nat>) returns (q: seq<T>)
    requires Sorted(marked) && forall x | x in marked :: x < |queue|
    ensures q == Unmarked(queue, marked, |queue|)
  {
    MarkedGoal(queue, marked);
    ghost var goal := Unmarked(queue, marked, |queue|);
    ghost var due := Backward(None, marked);
    q := queue;
    var it := new BackwardRanges(marked);
    var item := it.NextBack();
    while item.Some?
      invariant fresh(it) && OpenBehind(it.current, it.rest)
      invariant due == (if item.Some? then [item.value] + Backward(it.current, it.rest) else [])
      invariant OnTheWay(q, due, goal)
      decreases |due|
    {
      OneDeletion(q, due, goal);
      q := Delete(q, FromRun(item.value));
      item := it.NextBack();
      due := due[1..];
    }
  }

  // ---- delete_multiple

  /** The server runs a list of deletions up to the first position that is out of range. */
  function RunDeletes<T>(q: seq<T>, commands: seq<SingleOrRange>): (bool, seq<T>)
    decreases |commands|
  {
    if commands == [] then (true, q)
    else if commands[0].start < Behind(commands[0]) <= |q| then RunDeletes(Delete(q, commands[0]), commands[1..])
    else (false, q)
  }

  lemma {:induction false} RunsGoal<T>(q: seq<T>, runs: seq<Run>, commands: seq<SingleOrRange>, goal: seq<T>)
    requires OnTheWay(q, runs, goal) && |commands| == |runs|
    requires forall i | 0 <= i < |runs| :: commands[i].start == runs[i].start && Behind(commands[i]) == runs[i].end + 1
    ensures RunDeletes(q, commands) == (true, goal)
    decreases |runs|
  {
    if runs != [] {
      OneDeletion(q, runs, goal);
      RunsGoal(Delete(q, FromRun(runs[0])), runs[1..], commands[1..], goal);
    }
  }

  /** Ranges and single positions in ascending order, none reaching into another. */
  predicate Disjoint(rs: seq<SingleOrRange>) {
    && (forall i | 0 <= i < |rs| :: rs[i].start < Behind(rs[i]))
    && (forall i, j | 0 <= i < j < |rs| :: Behind(rs[i]) <= rs[j].start)
  }

  predicate Within(rs: seq<SingleOrRange>, n: nat) {
    forall i | 0 <= i < |rs| :: Behind(rs[i]) <= n
  }

  predicate Named(rs: seq<SingleOrRange>, x: nat) {
    exists i | 0 <= i < |rs| :: rs[i].start <= x < Behind(rs[i])
  }

  /** The first `n` elements without those the ranges name, in order. */
  function Outside<T>(q: seq<T>, rs: seq<SingleOrRange>, n: nat): seq<T>
    requires n <= |q|
  {
    if n == 0 then [] else Outside(q, rs, n - 1) + if Named(rs, n - 1) then [] else [q[n - 1]]
  }

  /** The ranges from the last to the first, as runs. */
  function DownRuns(rs: seq<SingleOrRange>): seq<Run>
    requires Disjoint(rs)
  {
    seq(|rs|, i requires 0 <= i < |rs| => Run(rs[|rs| - 1 - i].start, Behind(rs[|rs| - 1 - i]) - 1))
  }

  lemma DownRunsCover(rs: seq<SingleOrRange>, x: nat)
    requires Disjoint(rs)
    ensures Covers(DownRuns(rs), x) <==> Named(rs, x)
  {
    var runs := DownRuns(rs);
    if Named(rs, x) {
      var i :| 0 <= i < |rs| && rs[i].start <= x < Behind(rs[i]);
      assert runs[|rs| - 1 - i].start == rs[i].start;
    }
  }

  lemma {:induction false} SameOutside<T>(q: seq<T>, rs: seq<SingleOrRange>, n: nat)
    requires n <= |q| && Disjoint(rs)
    ensures Uncovered(q, DownRuns(rs), n) == Outside(q, rs, n)
  {
    if n > 0 {
      DownRunsCover(rs, n - 1);
      SameOutside(q, rs, n - 1);
    }
  }

  /** One list of deletions, the last range first: all of it or nothing. */
  lemma RangesDeleted<T>(q: seq<T>, rs: seq<SingleOrRange>)
    requires Disjoint(rs)
    ensures RunDeletes(q, Reverse(rs)) == if Within(rs, |q|) then (true, Outside(q, rs, |q|)) else (false, q)
  {
    if Within(rs, |q|) {
      DeleteAllKeepsUncovered(q, DownRuns(rs));
      SameOutside(q, rs, |q|);
      RunsGoal(q, DownRuns(rs), Reverse(rs), Outside(q, rs, |q|));
    } else {
      var last := rs[|rs| - 1];
      assert Reverse(rs)[0] == last;
      assert Behind(last) > |q|;
    }
  }

  datatype MpdDelete = SongInPlaylist(playlist: string, range: SingleOrRange) | Playlist(name: string)

  type Playlists<T> = map<string, seq<T>>

  /** The server runs a list of such commands up to the first it refuses. */
  function RunAll<T>(stored: Playlists<T>, commands: seq<MpdDelete>): (bool, Playlists<T>)
    decreases |commands|
  {
    if commands == [] then (true, stored)
    else
      match commands[0]
      case SongInPlaylist(p, r) =>
        if p in stored && r.start < Behind(r) <= |stored[p]| then RunAll(stored[p := Delete(stored[p], r)], commands[1..])
        else (false, stored)
      case Playlist(p) =>
        if p in stored then RunAll(stored - {p}, commands[1..]) else (false, stored)
  }

  /** What the playlist pane asks to delete inside one playlist. */
  function SongsOf(name: string, rs: seq<SingleOrRange>): seq<MpdDelete> {
    seq(|rs|, i requires 0 <= i < |rs| => SongInPlaylist(name, rs[i]))
  }

  lemma {:induction false} OnePlaylist<T>(stored: Playlists<T>, name: string, rs: seq<SingleOrRange>)
    requires name in stored
    ensures RunAll(stored, SongsOf(name, rs)) == (RunDeletes(stored[name], rs).0, stored[name := RunDeletes(stored[name], rs).1])
    decreases |rs|
  {
    if rs == [] {
      assert stored[name := stored[name]] == stored;
    } else {
      var r := rs[0];
      assert SongsOf(name, rs)[1..] == SongsOf(name, rs[1..]);
      if r.start < Behind(r) <= |stored[name]| {
        var now := stored[name := Delete(stored[name], r)];
        OnePlaylist(now, name, rs[1..]);
        assert now[name := RunDeletes(now[name], rs[1..]).1] == stored[name := RunDeletes(now[name], rs[1..]).1];
      } else {
        assert stored[name := stored[name]] == stored;
      }
    }
  }

  /** What it asks to delete among the playlists. */
  function PlaylistsOf(names: seq<string>): seq<MpdDelete> {
    seq(|names|, i requires 0 <= i < |names| => Playlist(names[i]))
  }

  predicate Distinct(names: seq<string>) {
    forall i, j | 0 <= i < j < |names| :: names[i] != names[j]
  }

  lemma {:induction false} WholePlaylists<T>(stored: Playlists<T>, names: seq<string>)
    ensures RunAll(stored, PlaylistsOf(names)).0 <==> Distinct(names) && forall n | n in names :: n in stored
    ensures RunAll(stored, PlaylistsOf(names)).0 ==> RunAll(stored, PlaylistsOf(names)).1 == stored - set n | n in names
    decreases |names|
  {
    if names == [] {
      assert stored - (set n | n in names) == stored;
    } else {
      var first, rest := names[0], names[1..];
      assert PlaylistsOf(names)[1..] == PlaylistsOf(rest);
      assert names == [first] + rest;
      if first in stored {
        var now := stored - {first};
        WholePlaylists(now, rest);
        DistinctHead(names);
        assert (forall n | n in rest :: n in now) <==> (forall n | n in rest :: n in stored) && first !in rest;
        OneLess(stored, names);
      }
    }
  }

  lemma OneLess<T>(stored: Playlists<T>, names: seq<string>)
    requires names != []
    ensures (stored - {names[0]}) - (set n | n in names[1..]) == stored - set n | n in names
  {
    assert names == [names[0]] + names[1..];
    assert (set n | n in names) == {names[0]} + set n | n in names[1..];
  }

  lemma DistinctHead(names: seq<string>)
    requires names != []
    ensures Distinct(names) <==> Distinct(names[1..]) && names[0] !in names[1..]
  {
    if Distinct(names[1..]) && names[0] !in names[1..] {
      forall i, j | 0 <= i < j < |names| ensures names[i] != names[j] {
        assert names[1..][j - 1] == names[j];
        if i > 0 { assert names[1..][i - 1] == names[i]; }
      }
    }
  }

  /** `delete_multiple`: one list, the last item first. For songs of a playlist given in ascending
      order, single or as ranges, it deletes exactly those or, if one is not there, nothing; for
      playlists it deletes exactly them if all are there. */
  method DeleteMultiple<T>(stored: Playlists<T>, items: seq<MpdDelete>) returns (ok: bool, after: Playlists<T>)
    ensures (ok, after) == RunAll(stored, Reverse(items))
    ensures forall name, rs | name in stored && Disjoint(rs) && items == SongsOf(name, rs) ::
      (ok, after) == if Within(rs, |stored[name]|) then (true, stored[name := Outside(stored[name], rs, |stored[name]|)])
                     else (false, stored)
    ensures forall names | items == PlaylistsOf(names) ::
      && (ok <==> Distinct(names) && forall n | n in names :: n in stored)
      && (ok ==> after == stored - set n | n in names)
  {
    forall name, rs | name in stored && Disjoint(rs) && items == SongsOf(name, rs)
      ensures RunAll(stored, Reverse(items))
           == if Within(rs, |stored[name]|) then (true, stored[name := Outside(stored[name], rs, |stored[name]|)])
              else (false, stored)
    {
      SongsDeleted(stored, name, rs);
    }
    forall names | items == PlaylistsOf(names)
      ensures RunAll(stored, Reverse(items)).0 <==> Distinct(names) && forall n | n in names :: n in stored
      ensures RunAll(stored, Reverse(items)).0 ==> RunAll(stored, Reverse(items)).1 == stored - set n | n in names
    {
      PlaylistsDeleted(stored, names);
    }
    if items == [] {
      return true, stored;
    }
    var commands: seq<MpdDelete> := [];
    var i := |items|;
    while i > 0
      invariant 0 <= i <= |items|
      invariant commands == Reverse(items)[..|items| - i]
    {
      i := i - 1;
      commands := commands + [items[i]];
    }
    assert commands == Reverse(items);
    var result := RunAll(stored, commands);
    return result.0, result.1;
  }

  lemma SongsDeleted<T>(stored: Playlists<T>, name: string, rs: seq<SingleOrRange>)
    requires name in stored && Disjoint(rs)
    ensures RunAll(stored, Reverse(SongsOf(name, rs)))
         == if Within(rs, |stored[name]|) then (true, stored[name := Outside(stored[name], rs, |stored[name]|)])
            else (false, stored)
  {
    assert Reverse(SongsOf(name, rs)) == SongsOf(name, Reverse(rs));
    OnePlaylist(stored, name, Reverse(rs));
    RangesDeleted(stored[name], rs);
    assert stored[name := stored[name]] == stored;
  }

  lemma PlaylistsDeleted<T>(stored: Playlists<T>, names: seq<string>)
    ensures var r := RunAll(stored, Reverse(PlaylistsOf(names)));
      && (r.0 <==> Distinct(names) && forall n | n in names :: n in stored)
      && (r.0 ==> r.1 == stored - set n | n in names)
  {
    var back := Reverse(names);
    assert Reverse(PlaylistsOf(names)) == PlaylistsOf(back);
    WholePlaylists(stored, back);
    assert forall i | 0 <= i < |names| :: back[|names| - 1 - i] == names[i];
    assert forall n :: n in back <==> n in names;
    assert Reverse(back) == names;
    if Distinct(names) { ReverseDistinct(names); }
    if Distinct(back) { ReverseDistinct(back); }
    assert (set n | n in back) == (set n | n in names);
  }

  lemma ReverseDistinct(names: seq<string>)
    requires Distinct(names)
    ensures Distinct(Reverse(names))
  {
  }

  // ---- Command::Remove

  datatype RemoveError = OutOfBounds(index: nat) | Refused

  /** Single positions, highest first, as runs. */
  function Singles(positions: seq<nat>): seq<Run> {
    seq(|positions|, i requires 0 <= i < |positions| => Run(positions[|positions| - 1 - i], positions[|positions| - 1 - i]))
  }

  lemma SinglesCover(positions: seq<nat>, x: nat)
    ensures Covers(Singles(positions), x) <==> x in positions
  {
    var runs := Singles(positions);
    if x in positions {
      var i :| 0 <= i < |positions| && positions[i] == x;
      assert runs[|positions| - 1 - i] == Run(x, x);
    }
  }

  lemma SinglesGoal<T>(queue: seq<T>, positions: seq<nat>)
    requires Sorted(positions) && forall x | x in positions :: x < |queue|
    ensures OnTheWay(queue, Singles(positions), Unmarked(queue, positions, |queue|))
  {
    forall i | 0 <= i < |positions| ensures Singles(positions)[i].end < |queue| {
      assert Singles(positions)[i].end in positions;
    }
    DeleteAllKeepsUncovered(queue, Singles(positions));
    forall x: nat ensures Covers(Singles(positions), x) <==> x in positions { SinglesCover(positions, x); }
    UncoveredIsUnmarked(queue, Singles(positions), positions, |queue|);
  }

  /** The commands for single positions, highest first. */
  function SingleCommands(positions: seq<nat>): seq<SingleOrRange> {
    seq(|positions|, i requires 0 <= i < |positions| => Single(positions[|positions| - 1 - i]))
  }

  lemma {:induction false} AtLeastIndex(s: seq<nat>, i: nat)
    requires Sorted(s) && i < |s|
    ensures s[i] >= i
  {
    if i > 0 { AtLeastIndex(s, i - 1); }
  }

  lemma SinglesDeleted<T>(queue: seq<T>, positions: seq<nat>)
    requires Sorted(positions) && forall x | x in positions :: x < |queue|
    ensures RunDeletes(queue, SingleCommands(positions)) == (true, Unmarked(queue, positions, |queue|))
  {
    SinglesGoal(queue, positions);
    var runs, commands := Singles(positions), SingleCommands(positions);
    forall i | 0 <= i < |positions| ensures commands[i] == Single(runs[i].start) && runs[i].start == runs[i].end {}
    RunsGoal(queue, Singles(positions), SingleCommands(positions), Unmarked(queue, positions, |queue|));
  }

  lemma RemoveOutcome<T>(queue: seq<T>, positions: seq<nat>)
    requires Sorted(positions) && positions != []
    requires positions[|positions| - 1] <= LastIndex(queue)
    ensures if queue == [] then positions == [0] && RunDeletes(queue, SingleCommands(positions)) == (false, queue)
            else RunDeletes(queue, SingleCommands(positions)) == (true, Unmarked(queue, positions, |queue|))
  {
    if queue == [] {
      AtLeastIndex(positions, |positions| - 1);
      assert SingleCommands(positions)[0] == Single(0);
    } else {
      SinglesDeleted(queue, positions);
    }
  }

  /** The connection with MPD's queue behind it. While a command list is open, commands are only
      collected and nothing is answered. */
  class Connection<T(==)> {
    var queue: seq<T>
    var listOpen: bool
    var list: seq<SingleOrRange>

    constructor (queue: seq<T>)
      ensures this.queue == queue && !listOpen && list == []
    {
      this.queue, listOpen, list := queue, false, [];
    }

    method StartList()
      requires !listOpen
      modifies this`listOpen, this`list
      ensures listOpen && list == []
    {
      listOpen, list := true, [];
    }

    /** One deletion, and what MPD answers to it. */
    method SendDelete(r: SingleOrRange) returns (answer: Option<bool>)
      modifies this`queue, this`list
      ensures listOpen ==> answer == None && queue == old(queue) && list == old(list) + [r]
      ensures !listOpen ==> list == old(list) && answer.Some? && (answer.value, queue) == RunDeletes(old(queue), [r])
    {
      if listOpen {
        list := list + [r];
        answer := None;
      } else {
        var (ok, after) := RunDeletes(queue, [r]);
        queue := after;
        answer := Some(ok);
      }
    }

    method ExecuteList() returns (ok: bool)
      requires listOpen
      modifies this
      ensures !listOpen && list == [] && (ok, queue) == RunDeletes(old(queue), old(list))
    {
      var (done, after) := RunDeletes(queue, list);
      ok, queue, listOpen, list := done, after, false, [];
    }

    /** `Command::Remove`: single deletions, highest first. It removes exactly the given positions
        or nothing. If one is out of bounds it returns with the list it has begun still open;
        position 0 of an empty queue passes that test and is refused by the server. */
    method Remove(positions: seq<nat>) returns (r: Result<(), RemoveError>)
      requires Sorted(positions) && !listOpen && list == []
      modifies this
      ensures r.Success? <==> forall x | x in positions :: x < |old(queue)|
      ensures r.Success? ==> queue == Unmarked(old(queue), positions, |old(queue)|)
      ensures r.Failure? ==> queue == old(queue)
      ensures r == Failure(Refused) <==> old(queue) == [] && positions == [0]
      ensures listOpen <==> r.Failure? && r.error.OutOfBounds?
      ensures listOpen <==> positions != [] && positions[|positions| - 1] > LastIndex(old(queue))
      ensures list == []
    {
      if positions == [] {
        SinglesGoal(queue, positions);
        return Success(());
      }
      StartList();
      ghost var all := positions[|positions| - 1];
      var i := |positions|;
      var last := LastIndex(queue);
      while i > 0
        invariant 0 <= i <= |positions|
        invariant listOpen && queue == old(queue)
        invariant i < |positions| ==> all <= last
        invariant list == SingleCommands(positions)[..|positions| - i]
      {
        i := i - 1;
        if positions[i] > last {
          assert positions[i] in positions && all in positions;
          return Failure(OutOfBounds(positions[i]));
        }
        var answer := SendDelete(Single(positions[i]));
      }
      assert list == SingleCommands(positions);
      RemoveOutcome(queue, positions);
      var ok := ExecuteList();
      if !ok {
        assert 0 in positions;
        return Failure(Refused);
      }
      assert forall x | x in positions :: x <= all;
      return Success(());
    }
  }

  /** `playlistlength.saturating_sub(1)`. */
  function LastIndex<T>(queue: seq<T>): nat {
    if |queue| == 0 then 0 else |queue| - 1
  }
}
