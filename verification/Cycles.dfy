/** What `bd dep cycles` answers: a cycle of the dependency graph, or nothing (internal/beads/beads.go). */
module Cycles {
  import opened Holders

  type Edge = (string, string)  // blocked, blocker

  ghost predicate Links(ns: seq<string>, edges: set<Edge>) {
    forall i :: 0 <= i < |ns| - 1 ==> Link(ns, i, edges)
  }

  predicate Link(ns: seq<string>, i: nat, edges: set<Edge>)
    requires i < |ns| - 1
  {
    (ns[i], ns[i + 1]) in edges
  }

  ghost predicate IsCycle(ns: seq<string>, edges: set<Edge>) {
    |ns| >= 2 && Links(ns, edges) && ns[0] == ns[|ns| - 1]
  }

  ghost predicate Cyclic(edges: set<Edge>) {
    exists ns :: IsCycle(ns, edges)
  }

  /** Where `n` first stands in the order; its length when absent. */
  function Position(order: seq<string>, n: string): (k: nat)
    ensures k <= |order|
    ensures n in order <==> k < |order|
  {
    First(order, n)
  }

  /** An order of work in which every blocker comes before whatever it blocks. */
  ghost predicate Schedules(order: seq<string>, edges: set<Edge>) {
    forall a, b :: (a, b) in edges ==> Position(order, b) < Position(order, a) < |order|
  }

  lemma {:induction false} PositionsFallAlong(ns: seq<string>, order: seq<string>, edges: set<Edge>, i: nat)
    requires Links(ns, edges) && Schedules(order, edges) && 0 < i < |ns|
    ensures Position(order, ns[i]) < Position(order, ns[0])
  {
    assert Link(ns, i - 1, edges);
    if i > 1 {
      PositionsFallAlong(ns, order, edges, i - 1);
    }
  }

  /** A graph that can be scheduled has no cycle. */
  lemma ScheduledMeansAcyclic(order: seq<string>, edges: set<Edge>)
    requires Schedules(order, edges)
    ensures !Cyclic(edges)
  {
    if ns :| IsCycle(ns, edges) {
      PositionsFallAlong(ns, order, edges, |ns| - 1);
    }
  }

  lemma PositionAfterAppend(order: seq<string>, n: string, m: string)
    requires n !in order
    ensures Position(order + [n], n) == |order|
    ensures m in order ==> Position(order + [n], m) == Position(order, m)
  {
    var more := order + [n];
    assert forall j :: 0 <= j < |order| ==> more[j] == order[j];
    FirstIs(more, n, |order|);
    if m in order {
      FirstIs(more, m, Position(order, m));
    }
  }

  function Ends(edges: set<Edge>): set<string> {
    (set e | e in edges :: e.0) + (set e | e in edges :: e.1)
  }

  function Names(order: seq<string>): set<string> {
    set n | n in order
  }

  /** Nothing in `rest` blocks `n`. */
  predicate Free(n: string, rest: set<string>, edges: set<Edge>) {
    forall b <- rest :: (n, b) !in edges
  }

  predicate SomethingFree(rest: set<string>, edges: set<Edge>) {
    exists n <- rest :: Free(n, rest, edges)
  }

  /** Every bead is in `rest` or in the order, not both, and the order is right as far as it goes. */
  ghost predicate Sorting(rest: set<string>, order: seq<string>, edges: set<Edge>) {
    && rest !! Names(order) && Ends(edges) == rest + Names(order)
    && forall a, b :: (a, b) in edges && a in order ==> Position(order, b) < Position(order, a)
  }

  /** Finds an order of work, or a cycle that rules one out. */
  method FindCycle(edges: set<Edge>) returns (cycle: seq<string>, ghost order: seq<string>)
    ensures cycle == [] <==> !Cyclic(edges)
    ensures cycle != [] ==> IsCycle(cycle, edges)
    ensures cycle == [] ==> Schedules(order, edges)
  {
    var rest := Ends(edges);
    order := [];
    while SomethingFree(rest, edges)
      invariant Sorting(rest, order, edges)
      decreases |rest|
    {
      var n :| n in rest && Free(n, rest, edges);
      ScheduleOneMore(order, edges, n, rest);
      rest, order := rest - {n}, order + [n];
    }
    if rest == {} {
      EverythingScheduled(order, edges);
      ScheduledMeansAcyclic(order, edges);
      return [], order;
    }
    cycle := Walk(edges, rest);
  }

  lemma ScheduleOneMore(order: seq<string>, edges: set<Edge>, n: string, rest: set<string>)
    requires Sorting(rest, order, edges) && n in rest && Free(n, rest, edges)
    ensures Sorting(rest - {n}, order + [n], edges)
  {
    assert n !in order by {
      assert n !in Names(order);
    }
    assert Names(order + [n]) == Names(order) + {n};
    forall a, b | (a, b) in edges && a in order + [n]
      ensures Position(order + [n], b) < Position(order + [n], a)
    {
      assert (a, b).1 in Ends(edges);
      assert b in Names(order);
      PositionAfterAppend(order, n, a);
      PositionAfterAppend(order, n, b);
    }
  }

  lemma EverythingScheduled(order: seq<string>, edges: set<Edge>)
    requires Sorting({}, order, edges)
    ensures Schedules(order, edges)
  {
    forall a, b | (a, b) in edges
      ensures Position(order, b) < Position(order, a) < |order|
    {
      assert (a, b).0 in Names(order);
    }
  }

  /** From blocked to blocker among beads that all have one, until a bead comes up again. */
  method Walk(edges: set<Edge>, rest: set<string>) returns (cycle: seq<string>)
    requires rest != {} && !SomethingFree(rest, edges)
    ensures IsCycle(cycle, edges) && Cyclic(edges)
  {
    var n :| n in rest;
    var path, left := [n], rest - {n};
    cycle := [];
    while cycle == []
      invariant if cycle == [] then Walking(path, left, rest, edges) else IsCycle(cycle, edges)
      decreases cycle == [], |left|
    {
      cycle, path, left := WalkOn(path, left, rest, edges);
    }
  }

  /** A walk among `rest` so far; `left` are the beads it may still come to for the first time. */
  ghost predicate Walking(path: seq<string>, left: set<string>, rest: set<string>, edges: set<Edge>) {
    && path != [] && path[|path| - 1] in rest && Links(path, edges)
    && forall m <- rest :: m in path || m in left
  }

  method WalkOn(path: seq<string>, left: set<string>, rest: set<string>, edges: set<Edge>)
    returns (cycle: seq<string>, on: seq<string>, fewer: set<string>)
    requires Walking(path, left, rest, edges) && !SomethingFree(rest, edges)
    ensures if cycle != [] then IsCycle(cycle, edges) else Walking(on, fewer, rest, edges) && |fewer| < |left|
  {
    var next := SomeBlocker(path[|path| - 1], rest, edges);
    if next in path {
      ClosesACycle(path, Position(path, next), edges);
      return path[Position(path, next)..] + [next], path, left;
    }
    LinksOn(path, next, edges);
    return [], path + [next], left - {next};
  }

  method SomeBlocker(n: string, rest: set<string>, edges: set<Edge>) returns (b: string)
    requires n in rest && !SomethingFree(rest, edges)
    ensures b in rest && (n, b) in edges
  {
    assert !Free(n, rest, edges);
    b :| b in rest && (n, b) in edges;
  }

  lemma ClosesACycle(path: seq<string>, i: nat, edges: set<Edge>)
    requires i < |path| && Links(path, edges) && (path[|path| - 1], path[i]) in edges
    ensures IsCycle(path[i..] + [path[i]], edges)
  {
    var cycle := path[i..] + [path[i]];
    forall k | 0 <= k < |cycle| - 1
      ensures Link(cycle, k, edges)
    {
      assert i + k + 1 < |path| ==> Link(path, i + k, edges);
      assert cycle[k] == path[i + k];
      assert i + k + 1 < |path| ==> cycle[k + 1] == path[i + k + 1];
    }
  }

  lemma LinksOn(path: seq<string>, next: string, edges: set<Edge>)
    requires path != [] && Links(path, edges) && (path[|path| - 1], next) in edges
    ensures Links(path + [next], edges)
  {
    forall i | 0 <= i < |path|
      ensures Link(path + [next], i, edges)
    {
      assert i < |path| - 1 ==> Link(path, i, edges);
    }
  }
}
