/** Walking the panes of a layout with an explicit stack. */
module PaneIter {
  import opened Sequences
  import opened Wrappers

  datatype Layout = Pane(id: nat) | Split(panes: seq<Layout>)

  /** The panes from left to right. */
  function Leaves(t: Layout): seq<nat>
    decreases t, 0
  {
    match t
    case Pane(id) => [id]
    case Split(panes) => LeavesOf(panes)
  }

  function LeavesOf(ts: seq<Layout>): seq<nat>
    decreases ts, 1
  {
    if ts == [] then [] else Leaves(ts[0]) + LeavesOf(ts[1..])
  }

  /** Number of nodes. */
  function Size(t: Layout): (n: nat)
    ensures n > 0
    decreases t, 0
  {
    match t
    case Pane(_) => 1
    case Split(panes) => 1 + SizeOf(panes)
  }

  function SizeOf(ts: seq<Layout>): nat
    decreases ts, 1
  {
    if ts == [] then 0 else Size(ts[0]) + SizeOf(ts[1..])
  }

  lemma {:induction false} LeavesOfConcat(a: seq<Layout>, b: seq<Layout>)
    ensures LeavesOf(a + b) == LeavesOf(a) + LeavesOf(b)
  {
    if a == [] {
      assert a + b == b;
    } else {
      assert (a + b)[1..] == a[1..] + b;
      LeavesOfConcat(a[1..], b);
      assert (a + b)[0] == a[0];
      assert LeavesOf(a + b) == Leaves(a[0]) + (LeavesOf(a[1..]) + LeavesOf(b));
    }
  }

  lemma {:induction false} SizeOfConcat(a: seq<Layout>, b: seq<Layout>)
    ensures SizeOf(a + b) == SizeOf(a) + SizeOf(b)
  {
    if a == [] {
      assert a + b == b;
    } else {
      SizeOfConcat(a[1..], b);
      assert (a + b)[1..] == a[1..] + b;
    }
  }

  /** A stack and the tree on top of it. */
  lemma TopOfStack(stack: seq<Layout>)
    requires stack != []
    ensures var n := |stack| - 1;
      && LeavesOf(stack) == LeavesOf(stack[..n]) + Leaves(stack[n])
      && SizeOf(stack) == SizeOf(stack[..n]) + Size(stack[n])
  {
    var n := |stack| - 1;
    assert stack == stack[..n] + [stack[n]];
    LeavesOfConcat(stack[..n], [stack[n]]);
    SizeOfConcat(stack[..n], [stack[n]]);
    OneTree(stack[n]);
  }

  lemma OneTree(t: Layout)
    ensures LeavesOf([t]) == Leaves(t) && SizeOf([t]) == Size(t)
  {
    assert [t][1..] == [];
    assert Leaves(t) + [] == Leaves(t);
  }

  class PaneIter {
    var queue: seq<Layout>

    /** `panes_iter`. */
    constructor (layout: Layout)
      ensures LeavesOf(queue) == Leaves(layout)
    {
      queue := if layout.Pane? then [layout] else layout.panes;
      new;
      assert [layout][1..] == [];
    }

    /** The next pane is the last leaf of the stack; what is left are the others. */
    method Next() returns (item: Option<nat>)
      modifies this
      ensures var due := old(LeavesOf(queue));
        if due == [] then item == None && LeavesOf(queue) == []
        else item == Some(due[|due| - 1]) && LeavesOf(queue) == due[..|due| - 1]
      decreases SizeOf(queue)
    {
      if queue == [] {
        return None;
      }
      TopOfStack(queue);
      var top := queue[|queue| - 1];
      queue := queue[..|queue| - 1];
      match top
      case Pane(id) => item := Some(id);
      case Split(panes) =>
        LeavesOfConcat(queue, panes);
        SizeOfConcat(queue, panes);
        queue := queue + panes;
        item := Next();
    }
  }

  /** Walking to the end yields every pane once, from right to left. */
  method CollectPanes(layout: Layout) returns (ids: seq<nat>)
    ensures ids == Reverse(Leaves(layout))
  {
    var it := new PaneIter(layout);
    ids := [];
    ghost var all, left := Leaves(layout), |Leaves(layout)|;
    var item := it.Next();
    while item.Some?
      invariant fresh(it) && 0 <= left <= |all|
      invariant ids == Reverse(all[left..])
      invariant item.Some? ==> left > 0 && item.value == all[left - 1] && LeavesOf(it.queue) == all[..left - 1]
      invariant item.None? ==> left == 0
      decreases left
    {
      ReverseGrows(all, left);
      ids := ids + [item.value];
      left := left - 1;
      PrefixOfPrefix(all, left);
      item := it.Next();
    }
    assert all[0..] == all;
  }

  lemma PrefixOfPrefix(s: seq<nat>, n: nat)
    requires n <= |s|
    ensures n > 0 ==> s[..n][..n - 1] == s[..n - 1] && s[..n][n - 1] == s[n - 1]
  {
  }

  lemma ReverseGrows(s: seq<nat>, n: nat)
    requires 0 < n <= |s|
    ensures Reverse(s[n - 1..]) == Reverse(s[n..]) + [s[n - 1]]
  {
    assert s[n - 1..] == [s[n - 1]] + s[n..];
  }
}
