/**
  Directed graphs as graphlib holds them (a node set and a set of edges, no
  multigraph), with the notions that src/bootstrap.ts:56-63 relies on:
  sources, cycles, reachability and topological schedules.
 */
module Graphs {
  import opened Plugins

  /** An edge (u, v) means "u must initialise before v". */
  datatype Digraph<T> = Digraph(nodes: set<T>, edges: set<(T, T)>)

  /** Every edge's endpoints are nodes: graphlib's setEdge creates missing nodes. */
  ghost predicate Closed<T>(g: Digraph<T>) {
    forall e | e in g.edges :: e.0 in g.nodes && e.1 in g.nodes
  }

  /** A node with no incoming edge (a self-loop counts as incoming). */
  predicate IsSource<T(==)>(g: Digraph<T>, n: T) {
    n in g.nodes && forall e | e in g.edges :: e.1 != n
  }

  /** `graph.sources()` */
  function Sources<T(==)>(g: Digraph<T>): set<T> {
    set n | n in g.nodes && IsSource(g, n)
  }

  ghost predicate IsPath<T>(g: Digraph<T>, p: seq<T>) {
    |p| >= 1 && forall t | 0 <= t < |p| - 1 :: (p[t], p[t + 1]) in g.edges
  }

  /** n has a predecessor inside `within`. */
  ghost predicate HasPredecessorIn<T>(g: Digraph<T>, within: set<T>, n: T) {
    exists e | e in g.edges :: e.1 == n && e.0 in within
  }

  /** A non-empty walk back to where it started (a self-loop is one). */
  ghost predicate HasCycle<T(!new)>(g: Digraph<T>) {
    exists p :: IsPath(g, p) && |p| >= 2 && p[0] == p[|p| - 1]
  }

  ghost predicate Reachable<T(!new)>(g: Digraph<T>, u: T, v: T) {
    exists p :: IsPath(g, p) && p[0] == u && p[|p| - 1] == v
  }

  /**
    A schedule of g: every node exactly once, and for every edge A -> B,
    A strictly before B (a linear extension of the edge relation).
   */
  ghost predicate IsSchedule<T>(s: seq<T>, g: Digraph<T>) {
    && (forall i, j | 0 <= i < j < |s| :: s[i] != s[j])
    && (forall i | 0 <= i < |s| :: s[i] in g.nodes)
    && (forall n | n in g.nodes :: n in s)
    && (forall i, j | 0 <= i < |s| && 0 <= j < |s| && (s[i], s[j]) in g.edges :: i < j)
  }

  function IndexOf<T(==)>(s: seq<T>, x: T): (i: nat)
    requires x in s
    ensures i < |s| && s[i] == x
  {
    if s[0] == x then 0 else 1 + IndexOf(s[1..], x)
  }

  /** A topological order of a closed graph starts at one of `graph.sources()`. */
  lemma FirstIsSource<T>(g: Digraph<T>, s: seq<T>)
    requires Closed(g) && IsSchedule(s, g) && s != []
    ensures s[0] in Sources(g)
  {
    forall e | e in g.edges ensures e.1 != s[0] {
      var i, j := IndexOf(s, e.0), IndexOf(s, e.1);
      assert (s[i], s[j]) in g.edges;
      assert 0 < j;
    }
  }

  /**
    Kahn's algorithm, standing in for graphlib's depth-first `alg.topsort`.
    The model leaves open the order in which ready nodes are taken, so it
    lets any schedule come out; None when the nodes left over all have a
    predecessor among themselves.
   */
  method TopSort<T(==,!new)>(g: Digraph<T>) returns (r: Option<seq<T>>)
    requires Closed(g)
    ensures r.Some? ==> IsSchedule(r.value, g)
    ensures r.None? ==> HasCycle(g)
  {
    var remaining := g.nodes;
    var order: seq<T> := [];
    while remaining != {}
      invariant Progress(g, remaining, order)
      decreases |remaining|
    {
      var ready := set n | n in remaining && forall e | e in g.edges && e.1 == n :: e.0 !in remaining;
      if ready == {} {
        forall n | n in remaining ensures HasPredecessorIn(g, remaining, n) {
          assert n !in ready;
        }
        StuckImpliesCycle(g, remaining);
        return None;
      }
      var n :| n in ready;
      ProgressStep(g, remaining, order, n);
      order := order + [n];
      remaining := remaining - {n};
    }
    return Some(order);
  }

  /**
    The loop state of TopSort: `order` holds each removed node once, every
    edge between two of them goes forwards, and no edge leads from a
    remaining node into a removed one.
   */
  ghost predicate Progress<T>(g: Digraph<T>, remaining: set<T>, order: seq<T>) {
    && remaining <= g.nodes
    && (forall i | 0 <= i < |order| :: order[i] in g.nodes && order[i] !in remaining)
    && (forall n | n in g.nodes && n !in remaining :: n in order)
    && (forall i, j | 0 <= i < j < |order| :: order[i] != order[j])
    && (forall i, j | 0 <= i < |order| && 0 <= j < |order| && (order[i], order[j]) in g.edges :: i < j)
    && (forall e | e in g.edges && e.1 !in remaining :: e.0 !in remaining)
  }

  /** Removing a remaining node with no remaining predecessor keeps the loop state. */
  lemma ProgressStep<T>(g: Digraph<T>, remaining: set<T>, order: seq<T>, n: T)
    requires Progress(g, remaining, order)
    requires n in remaining && forall e | e in g.edges && e.1 == n :: e.0 !in remaining
    ensures Progress(g, remaining - {n}, order + [n])
  {
    var order', remaining' := order + [n], remaining - {n};
    forall i, j | 0 <= i < |order'| && 0 <= j < |order'| && (order'[i], order'[j]) in g.edges
      ensures i < j
    {
      if j == |order| {
        assert order'[i] != n;
      } else if i < |order| {
        assert order'[i] == order[i] && order'[j] == order[j];
      }
    }
    forall i, j | 0 <= i < j < |order'| ensures order'[i] != order'[j] {
      if j == |order| {
        assert order'[i] == order[i];
      }
    }
  }

  /** `alg.isAcyclic(graph)`: true exactly when the graph has no cycle. */
  method IsAcyclic<T(==,!new)>(g: Digraph<T>) returns (acyclic: bool)
    requires Closed(g)
    ensures acyclic <==> !HasCycle(g)
  {
    var r := TopSort(g);
    if r.Some? {
      ScheduleExcludesCycle(r.value, g);
    }
    acyclic := r.Some?;
  }

  /**
    A non-empty set of nodes each of which has a predecessor inside the set
    contains a cycle.
   */
  lemma StuckImpliesCycle<T(!new)>(g: Digraph<T>, stuck: set<T>)
    requires stuck != {}
    requires forall n {:trigger HasPredecessorIn(g, stuck, n)} | n in stuck :: HasPredecessorIn(g, stuck, n)
    ensures HasCycle(g)
  {
    var n :| n in stuck;
    var w := BackWalk(g, stuck, n, |stuck|);
    var i, j := Pigeonhole(w, stuck);
    var c := seq(j - i + 1, t requires 0 <= t < j - i + 1 => w[j - t]);
    forall t | 0 <= t < |c| - 1 ensures (c[t], c[t + 1]) in g.edges {
      assert c[t] == w[(j - t - 1) + 1] && c[t + 1] == w[j - t - 1];
    }
    assert IsPath(g, c) && |c| >= 2 && c[0] == c[|c| - 1];
  }

  /** k steps backwards along edges, staying inside `stuck`. */
  lemma {:induction false} BackWalk<T>(g: Digraph<T>, stuck: set<T>, n: T, k: nat) returns (w: seq<T>)
    requires n in stuck
    requires forall m {:trigger HasPredecessorIn(g, stuck, m)} | m in stuck :: HasPredecessorIn(g, stuck, m)
    ensures |w| == k + 1 && w[0] == n
    ensures forall t | 0 <= t < |w| :: w[t] in stuck
    ensures forall t | 0 <= t < |w| - 1 :: (w[t + 1], w[t]) in g.edges
    decreases k
  {
    if k == 0 {
      w := [n];
    } else {
      assert HasPredecessorIn(g, stuck, n);
      var e :| e in g.edges && e.1 == n && e.0 in stuck;
      var rest := BackWalk(g, stuck, e.0, k - 1);
      w := [n] + rest;
      assert forall t | 1 <= t < |w| :: w[t] == rest[t - 1];
    }
  }

  /** A sequence longer than the set it draws from repeats an element. */
  lemma {:induction false} Pigeonhole<T>(w: seq<T>, s: set<T>) returns (i: nat, j: nat)
    requires forall t | 0 <= t < |w| :: w[t] in s
    requires |w| > |s|
    ensures i < j < |w| && w[i] == w[j]
    decreases |w|
  {
    if w[0] in w[1..] {
      var k :| 0 <= k < |w[1..]| && w[1..][k] == w[0];
      i, j := 0, k + 1;
    } else {
      var rest := s - {w[0]};
      assert |rest| == |s| - 1;
      forall t | 0 <= t < |w[1..]| ensures w[1..][t] in rest {
        assert w[1..][t] in w[1..];
      }
      var i', j' := Pigeonhole(w[1..], rest);
      i, j := i' + 1, j' + 1;
    }
  }

  lemma EdgeOrdered<T>(s: seq<T>, g: Digraph<T>, u: T, v: T)
    requires Closed(g) && IsSchedule(s, g) && (u, v) in g.edges
    ensures IndexOf(s, u) < IndexOf(s, v)
  {
    var i, j := IndexOf(s, u), IndexOf(s, v);
    assert (s[i], s[j]) in g.edges;
  }

  /** Along a path, positions in a schedule strictly increase. */
  lemma {:induction false} PathAscends<T>(s: seq<T>, g: Digraph<T>, p: seq<T>, t: nat)
    requires Closed(g) && IsSchedule(s, g) && IsPath(g, p) && 1 <= t < |p|
    ensures p[0] in s && p[t] in s && IndexOf(s, p[0]) < IndexOf(s, p[t])
  {
    assert (p[t - 1], p[t]) in g.edges;
    EdgeOrdered(s, g, p[t - 1], p[t]);
    if t > 1 {
      PathAscends(s, g, p, t - 1);
    }
  }

  /** A graph with a schedule has no cycle. */
  lemma ScheduleExcludesCycle<T(!new)>(s: seq<T>, g: Digraph<T>)
    requires Closed(g) && IsSchedule(s, g)
    ensures !HasCycle(g)
  {
    if HasCycle(g) {
      var p :| IsPath(g, p) && |p| >= 2 && p[0] == p[|p| - 1];
      PathAscends(s, g, p, |p| - 1);
      assert false;
    }
  }

  /** A non-empty graph without a source has a cycle. */
  lemma NoSourceImpliesCycle<T(!new)>(g: Digraph<T>)
    requires Closed(g) && g.nodes != {} && Sources(g) == {}
    ensures HasCycle(g)
  {
    forall n | n in g.nodes ensures HasPredecessorIn(g, g.nodes, n) {
      assert n !in Sources(g);
      var e :| e in g.edges && e.1 == n;
    }
    StuckImpliesCycle(g, g.nodes);
  }

  /**
    In an acyclic graph with a single source, every node is reachable from
    that source.
   */
  lemma SingleSourceReachesAll<T(!new)>(g: Digraph<T>, src: T)
    requires Closed(g) && !HasCycle(g) && Sources(g) == {src}
    ensures forall n | n in g.nodes :: Reachable(g, src, n)
  {
    assert IsPath(g, [src]);
    var unreached := set n | n in g.nodes && !Reachable(g, src, n);
    if unreached != {} {
      forall n | n in unreached ensures HasPredecessorIn(g, unreached, n) {
        assert n !in Sources(g);
        var e :| e in g.edges && e.1 == n;
        ReachableExtends(g, src, e.0, n);
      }
      StuckImpliesCycle(g, unreached);
      assert false;
    }
    forall n | n in g.nodes ensures Reachable(g, src, n) {
      assert n !in unreached;
    }
  }

  /** A node reached from u, followed by one more edge, reaches its successor. */
  lemma ReachableExtends<T(!new)>(g: Digraph<T>, u: T, m: T, n: T)
    ensures Reachable(g, u, m) && (m, n) in g.edges ==> Reachable(g, u, n)
  {
    if Reachable(g, u, m) && (m, n) in g.edges {
      var p :| IsPath(g, p) && p[0] == u && p[|p| - 1] == m;
      assert IsPath(g, p + [n]);
    }
  }

  /** In a graph whose only source is src, every schedule starts with src. */
  lemma SourceScheduledFirst<T>(s: seq<T>, g: Digraph<T>, src: T)
    requires Closed(g) && IsSchedule(s, g) && Sources(g) == {src}
    ensures |s| > 0 && s[0] == src
  {
    assert src in Sources(g);
    assert src in s;
    forall e | e in g.edges ensures e.1 != s[0] {
      assert e.0 in s;
    }
    assert s[0] in Sources(g);
  }

  /** Positions in a schedule strictly increase along a chain of edges. */
  lemma {:induction false} ChainAscends<T>(g: Digraph<T>, p: seq<T>, s: seq<T>, u: nat, v: nat)
    requires Closed(g) && IsSchedule(s, g)
    requires forall t | 0 <= t < |p| - 1 :: (p[t], p[t + 1]) in g.edges
    requires u < v < |p|
    ensures p[u] in s && p[v] in s && IndexOf(s, p[u]) < IndexOf(s, p[v])
    decreases v - u
  {
    assert (p[v - 1], p[v]) in g.edges;
    EdgeOrdered(s, g, p[v - 1], p[v]);
    if u < v - 1 {
      ChainAscends(g, p, s, u, v - 1);
    }
  }

  /** The chain node at position t of the chain sits at position t of the schedule. */
  lemma {:induction false} ChainPosition<T>(g: Digraph<T>, p: seq<T>, s: seq<T>, t: nat)
    requires Closed(g) && IsSchedule(s, g)
    requires forall u | 0 <= u < |p| :: p[u] in g.nodes
    requires forall n | n in g.nodes :: n in p
    requires forall u | 0 <= u < |p| - 1 :: (p[u], p[u + 1]) in g.edges
    requires t < |p|
    ensures p[t] in s && IndexOf(s, p[t]) == t
    decreases t
  {
    assert p[t] in s;
    var ft := IndexOf(s, p[t]);
    if t > 0 {
      ChainPosition(g, p, s, t - 1);
      ChainAscends(g, p, s, t - 1, t);
    }
    // position t of the schedule holds some chain node p[u]
    assert s[t] in g.nodes;
    var u :| 0 <= u < |p| && p[u] == s[t];
    assert IndexOf(s, p[u]) == t;
    if u < t {
      if u < t - 1 {
        ChainAscends(g, p, s, u, t - 1);
      }
      assert false;
    } else if u > t {
      ChainAscends(g, p, s, t, u);
      assert false;
    }
  }

  /**
    A chain of edges through every node leaves exactly one schedule: the
    chain itself.
   */
  lemma ChainForcesSchedule<T>(g: Digraph<T>, p: seq<T>, s: seq<T>)
    requires Closed(g) && IsSchedule(s, g)
    requires forall u | 0 <= u < |p| :: p[u] in g.nodes
    requires forall n | n in g.nodes :: n in p
    requires forall u | 0 <= u < |p| - 1 :: (p[u], p[u + 1]) in g.edges
    ensures s == p
  {
    if |p| > 0 {
      ChainPosition(g, p, s, |p| - 1);
      if |s| > |p| {
        assert s[|p|] in g.nodes;
        var u :| 0 <= u < |p| && p[u] == s[|p|];
        ChainPosition(g, p, s, u);
        assert false;
      }
      forall t | 0 <= t < |p| ensures s[t] == p[t] {
        ChainPosition(g, p, s, t);
      }
    }
  }

  /** A sequence without repetitions has as many elements as its set. */
  lemma {:induction false} DistinctCardinality<T>(s: seq<T>)
    requires forall i, j | 0 <= i < j < |s| :: s[i] != s[j]
    ensures |(set x | x in s)| == |s|
  {
    if s != [] {
      DistinctCardinality(s[1..]);
      var rest := set x | x in s[1..];
      assert s[0] !in rest;
      assert (set x | x in s) == {s[0]} + rest;
    }
  }

  /** A schedule lists as many entries as the graph has nodes. */
  lemma ScheduleLength<T>(s: seq<T>, g: Digraph<T>)
    requires IsSchedule(s, g)
    ensures |s| == |g.nodes|
  {
    DistinctCardinality(s);
    assert (set x | x in s) == g.nodes;
  }
}
