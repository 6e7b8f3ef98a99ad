/**
 Marked positions as ranges: a set of indices is walked in ascending or descending order
 and cut into maximal runs.
 */
module Ranges {
  import opened Sequences
  import opened Wrappers

  /** `start..=end`. */
  datatype Run = Run(start: nat, end: nat)

  /** A set's iteration: strictly ascending. */
  predicate Sorted(s: seq<nat>) {
    forall i, j | 0 <= i < j < |s| :: s[i] < s[j]
  }

  /** Maximal runs: in order, and never touching. */
  predicate Maximal(runs: seq<Run>) {
    && (forall i | 0 <= i < |runs| :: runs[i].start <= runs[i].end)
    && (forall i, j | 0 <= i < j < |runs| :: runs[i].end + 1 < runs[j].start)
  }

  predicate Covers(runs: seq<Run>, x: nat) {
    exists i | 0 <= i < |runs| :: runs[i].start <= x <= runs[i].end
  }

  // ---- forward

  /** What is still to come: the open run, then the rest of the iteration. */
  function Forward(current: Option<Run>, rest: seq<nat>): seq<Run>
    decreases |rest|
  {
    if rest == [] then (if current.Some? then [current.value] else [])
    else if current.None? then Forward(Some(Run(rest[0], rest[0])), rest[1..])
    else if rest[0] == current.value.end + 1 then Forward(Some(Run(current.value.start, rest[0])), rest[1..])
    else [current.value] + Forward(Some(Run(rest[0], rest[0])), rest[1..])
  }

  /** The open run lies before everything still to be read. */
  predicate OpenBefore(current: Option<Run>, rest: seq<nat>) {
    && Sorted(rest)
    && (current.Some? ==> current.value.start <= current.value.end)
    && (current.Some? ==> forall i | 0 <= i < |rest| :: current.value.end < rest[i])
  }

  /** The `Ranges` iterator over what is left of the set's iteration, used from the front. */
  class ForwardRanges {
    var rest: seq<nat>
    var current: Option<Run>

    constructor (elements: seq<nat>)
      requires Sorted(elements)
      ensures OpenBefore(current, rest) && Forward(current, rest) == Forward(None, elements)
    {
      rest, current := elements, None;
    }

    method Next() returns (item: Option<Run>)
      requires OpenBefore(current, rest)
      modifies this
      ensures OpenBefore(current, rest)
      ensures var due := old(Forward(current, rest));
        if due == [] then item == None && Forward(current, rest) == []
        else item == Some(due[0]) && Forward(current, rest) == due[1..]
      decreases |rest|
    {
      if rest == [] {
        item := current;
        current := None;
      } else {
        var element := rest[0];
        var taken := current;
        rest := rest[1..];
        match taken
        case None =>
          current := Some(Run(element, element));
          item := Next();
        case Some(run) =>
          if element == run.end + 1 {
            current := Some(Run(run.start, element));
            item := Next();
          } else {
            current := Some(Run(element, element));
            item := Some(run);
          }
      }
    }
  }

  // ---- backward

  function Backward(current: Option<Run>, rest: seq<nat>): seq<Run>
    decreases |rest|
  {
    var n := |rest| - 1;
    if rest == [] then (if current.Some? then [current.value] else [])
    else if current.None? then Backward(Some(Run(rest[n], rest[n])), rest[..n])
    else if rest[n] + 1 == current.value.start then Backward(Some(Run(rest[n], current.value.end)), rest[..n])
    else [current.value] + Backward(Some(Run(rest[n], rest[n])), rest[..n])
  }

  predicate OpenBehind(current: Option<Run>, rest: seq<nat>) {
    && Sorted(rest)
    && (current.Some? ==> current.value.start <= current.value.end)
    && (current.Some? ==> forall i | 0 <= i < |rest| :: rest[i] < current.value.start)
  }

  /** The same iterator used from the back. */
  class BackwardRanges {
    var rest: seq<nat>
    var current: Option<Run>

    constructor (elements: seq<nat>)
      requires Sorted(elements)
      ensures OpenBehind(current, rest) && Backward(current, rest) == Backward(None, elements)
    {
      rest, current := elements, None;
    }

    method NextBack() returns (item: Option<Run>)
      requires OpenBehind(current, rest)
      modifies this
      ensures OpenBehind(current, rest)
      ensures var due := old(Backward(current, rest));
        if due == [] then item == None && Backward(current, rest) == []
        else item == Some(due[0]) && Backward(current, rest) == due[1..]
      decreases |rest|
    {
      if rest == [] {
        item := current;
        current := None;
      } else {
        var element := rest[|rest| - 1];
        var taken := current;
        rest := rest[..|rest| - 1];
        match taken
        case None =>
          current := Some(Run(element, element));
          item := NextBack();
        case Some(run) =>
          // an element is below the run, so this does not underflow
          var below: nat := run.start - 1;
          if element == below {
            current := Some(Run(element, run.end));
            item := NextBack();
          } else {
            current := Some(Run(element, element));
            item := Some(run);
          }
      }
    }
  }

  // ---- what the runs are

  lemma {:induction false} ForwardIsMaximal(current: Option<Run>, rest: seq<nat>)
    requires OpenBefore(current, rest)
    ensures Maximal(Forward(current, rest))
    ensures current.Some? ==> Forward(current, rest) != [] && Forward(current, rest)[0].start == current.value.start
    ensures current.None? && rest != [] ==> Forward(current, rest) != [] && Forward(current, rest)[0].start == rest[0]
    decreases |rest|
  {
    if rest != [] {
      var single := Some(Run(rest[0], rest[0]));
      if current.None? {
        ForwardIsMaximal(single, rest[1..]);
      } else if rest[0] == current.value.end + 1 {
        ForwardIsMaximal(Some(Run(current.value.start, rest[0])), rest[1..]);
      } else {
        ForwardIsMaximal(single, rest[1..]);
        PrependMaximal(current.value, Forward(single, rest[1..]));
      }
    }
  }

  lemma PrependMaximal(run: Run, runs: seq<Run>)
    requires Maximal(runs) && run.start <= run.end
    requires runs != [] ==> run.end + 1 < runs[0].start
    ensures Maximal([run] + runs)
  {
    var all := [run] + runs;
    forall i, j | 0 <= i < j < |all| ensures all[i].end + 1 < all[j].start {
      if i == 0 && j > 1 { assert runs[0].end + 1 < runs[j - 1].start; }
    }
  }

  lemma CoversPrepend(run: Run, runs: seq<Run>, x: nat)
    ensures Covers([run] + runs, x) <==> run.start <= x <= run.end || Covers(runs, x)
  {
    var all := [run] + runs;
    if Covers(runs, x) {
      var i :| 0 <= i < |runs| && runs[i].start <= x <= runs[i].end;
      assert all[i + 1] == runs[i];
    }
    if run.start <= x <= run.end { assert all[0] == run; }
  }

  /** The runs cover the open run and the elements, and nothing else. */
  lemma {:induction false} ForwardCovers(current: Option<Run>, rest: seq<nat>, x: nat)
    requires OpenBefore(current, rest)
    ensures Covers(Forward(current, rest), x)
       <==> (current.Some? && current.value.start <= x <= current.value.end) || x in rest
    decreases |rest|
  {
    if rest == [] {
      if current.Some? {
        CoversPrepend(current.value, [], x);
        assert [current.value] + [] == [current.value];
      }
    } else {
      assert x in rest <==> x == rest[0] || x in rest[1..];
      var single := Some(Run(rest[0], rest[0]));
      if current.Some? && rest[0] == current.value.end + 1 {
        ForwardCovers(Some(Run(current.value.start, rest[0])), rest[1..], x);
      } else {
        ForwardCovers(single, rest[1..], x);
        if current.Some? { CoversPrepend(current.value, Forward(single, rest[1..]), x); }
      }
    }
  }

  /** The iterator yields the maximal runs of the set, ascending. */
  lemma RangesAreMaximalRuns(elements: seq<nat>)
    requires Sorted(elements)
    ensures Maximal(Forward(None, elements))
    ensures forall x: nat :: Covers(Forward(None, elements), x) <==> x in elements
  {
    ForwardIsMaximal(None, elements);
    forall x: nat ensures Covers(Forward(None, elements), x) <==> x in elements {
      ForwardCovers(None, elements, x);
    }
  }

  /** There is only one list of maximal runs with a given union. */
  lemma {:induction false} MaximalRunsAreUnique(a: seq<Run>, b: seq<Run>)
    requires Maximal(a) && Maximal(b)
    requires forall x: nat :: Covers(a, x) <==> Covers(b, x)
    ensures a == b
    decreases |a|
  {
    if a == [] || b == [] {
      if a != [] { CoversItsStart(a); }
      if b != [] { CoversItsStart(b); }
    } else {
      FirstRunsEqual(a, b);
      var a', b' := a[1..], b[1..];
      assert a == [a[0]] + a' && b == [b[0]] + b';
      forall x: nat ensures Covers(a', x) <==> Covers(b', x) {
        CoversPrepend(a[0], a', x);
        CoversPrepend(b[0], b', x);
        if x <= a[0].end {
          NotInLater(a, x);
          NotInLater(b, x);
        }
      }
      MaximalRunsAreUnique(a', b');
    }
  }

  lemma CoversItsStart(a: seq<Run>)
    requires Maximal(a) && a != []
    ensures Covers(a, a[0].start)
  {
    assert a[0].start <= a[0].start <= a[0].end;
  }

  lemma NotInLater(a: seq<Run>, x: nat)
    requires Maximal(a) && a != [] && x <= a[0].end + 1
    ensures !Covers(a[1..], x)
  {
    forall i | 0 <= i < |a[1..]| ensures !(a[1..][i].start <= x <= a[1..][i].end) {
      assert a[1..][i] == a[i + 1];
    }
  }

  lemma FirstRunsEqual(a: seq<Run>, b: seq<Run>)
    requires Maximal(a) && Maximal(b) && a != [] && b != []
    requires forall x: nat :: Covers(a, x) <==> Covers(b, x)
    ensures a[0] == b[0]
  {
    assert Covers(a, a[0].start) && Covers(b, b[0].start);
    assert a[0].start == b[0].start by {
      assert forall i | 0 < i < |a| :: a[i].start > a[0].start;
      assert forall i | 0 < i < |b| :: b[i].start > b[0].start;
    }
    EndGap(a);
    EndGap(b);
    NotInFirst(b, a[0].end + 1);
    NotInFirst(a, b[0].end + 1);
  }

  lemma NotInFirst(a: seq<Run>, x: nat)
    requires a != [] && !Covers(a, x)
    ensures x < a[0].start || a[0].end < x
  {
  }

  lemma EndGap(a: seq<Run>)
    requires Maximal(a) && a != []
    ensures !Covers(a, a[0].end + 1)
  {
  }

  // ---- the other direction

  /** Runs from the highest down, none reaching into another. */
  predicate Descending(runs: seq<Run>) {
    && (forall i | 0 <= i < |runs| :: runs[i].start <= runs[i].end)
    && (forall i, j | 0 <= i < j < |runs| :: runs[j].end < runs[i].start)
  }

  predicate NeverTouching(runs: seq<Run>) {
    forall i, j | 0 <= i < j < |runs| :: runs[j].end + 1 < runs[i].start
  }

  lemma ReverseCovers(runs: seq<Run>, x: nat)
    ensures Covers(Reverse(runs), x) <==> Covers(runs, x)
  {
    var r := Reverse(runs);
    if Covers(runs, x) {
      var i :| 0 <= i < |runs| && runs[i].start <= x <= runs[i].end;
      assert r[|runs| - 1 - i] == runs[i];
    }
  }

  lemma PrependDescending(run: Run, runs: seq<Run>)
    requires Descending(runs) && NeverTouching(runs) && run.start <= run.end
    requires runs != [] ==> runs[0].end + 1 < run.start
    ensures Descending([run] + runs) && NeverTouching([run] + runs)
  {
    var all := [run] + runs;
    forall i, j | 0 <= i < j < |all| ensures all[j].end + 1 < all[i].start {
      if i == 0 && j > 1 { assert runs[j - 1].end < runs[0].start <= runs[0].end; }
    }
  }

  lemma {:induction false} BackwardDescends(current: Option<Run>, rest: seq<nat>)
    requires OpenBehind(current, rest)
    ensures Descending(Backward(current, rest)) && NeverTouching(Backward(current, rest))
    ensures current.Some? ==> Backward(current, rest) != [] && Backward(current, rest)[0].end == current.value.end
    ensures current.None? && rest != [] ==> Backward(current, rest) != [] && Backward(current, rest)[0].end == rest[|rest| - 1]
    decreases |rest|
  {
    if rest != [] {
      var n := |rest| - 1;
      var single := Some(Run(rest[n], rest[n]));
      if current.Some? && rest[n] + 1 == current.value.start {
        BackwardDescends(Some(Run(rest[n], current.value.end)), rest[..n]);
      } else {
        BackwardDescends(single, rest[..n]);
        if current.Some? { PrependDescending(current.value, Backward(single, rest[..n])); }
      }
    }
  }

  lemma {:induction false} BackwardCovers(current: Option<Run>, rest: seq<nat>, x: nat)
    requires OpenBehind(current, rest)
    ensures Covers(Backward(current, rest), x)
       <==> (current.Some? && current.value.start <= x <= current.value.end) || x in rest
    decreases |rest|
  {
    if rest == [] {
      if current.Some? {
        CoversPrepend(current.value, [], x);
        assert [current.value] + [] == [current.value];
      }
    } else {
      var n := |rest| - 1;
      assert rest == rest[..n] + [rest[n]];
      var single := Some(Run(rest[n], rest[n]));
      if current.Some? && rest[n] + 1 == current.value.start {
        BackwardCovers(Some(Run(rest[n], current.value.end)), rest[..n], x);
      } else {
        BackwardCovers(single, rest[..n], x);
        if current.Some? { CoversPrepend(current.value, Backward(single, rest[..n]), x); }
      }
    }
  }

  /** `rev()` yields exactly the reverse of the forward list. */
  lemma BackwardIsReverse(elements: seq<nat>)
    requires Sorted(elements)
    ensures Backward(None, elements) == Reverse(Forward(None, elements))
  {
    var b := Backward(None, elements);
    BackwardDescends(None, elements);
    RangesAreMaximalRuns(elements);
    assert Maximal(Reverse(b));
    forall x: nat ensures Covers(Reverse(b), x) <==> Covers(Forward(None, elements), x) {
      ReverseCovers(b, x);
      BackwardCovers(None, elements, x);
    }
    MaximalRunsAreUnique(Reverse(b), Forward(None, elements));
    assert Reverse(Reverse(b)) == b;
  }
}
