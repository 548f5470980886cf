/**
  The "must-precede" graph that bootstrap() builds from the priority-sorted
  plugins (src/bootstrap.ts:38-54), and the lookup of scheduled nodes back to
  plugin descriptors (src/bootstrap.ts:56).
 */
module DependencyGraph {
  import opened Plugins
  import opened Graphs

  type Edge = (Name, Name)

  /** bootstrap() pushes 'core' onto this plugin's `after` list (src/bootstrap.ts:48-50). */
  predicate AnchoredToCore(p: Plugin) {
    p.name != CORE && CORE !in p.after + p.before
  }

  function EdgesFrom(name: Name, targets: seq<Name>): set<Edge> {
    set b | b in targets :: (name, b)
  }

  function EdgesInto(origins: seq<Name>, name: Name): set<Edge> {
    set a | a in origins :: (a, name)
  }

  function BeforeEdges(p: Plugin): set<Edge> {
    EdgesFrom(p.name, p.before)
  }

  function AfterEdges(p: Plugin): set<Edge> {
    EdgesInto(p.after, p.name)
  }

  /** The edges one plugin declares: its hints plus the implicit core -> name. */
  function PluginEdges(p: Plugin): set<Edge> {
    BeforeEdges(p) + AfterEdges(p) + (if AnchoredToCore(p) then {(CORE, p.name)} else {})
  }

  function DeclaredEdges(ps: seq<Plugin>): set<Edge> {
    set i, e | 0 <= i < |ps| && e in PluginEdges(ps[i]) :: e
  }

  function Names(ps: seq<Plugin>): set<Name> {
    set p | p in ps :: p.name
  }

  /** Every name that some plugin mentions in `before` or `after`. */
  function HintNames(ps: seq<Plugin>): set<Name> {
    set i, n | 0 <= i < |ps| && n in ps[i].before + ps[i].after :: n
  }

  function Endpoints(edges: set<Edge>): set<Name> {
    (set e | e in edges :: e.0) + (set e | e in edges :: e.1)
  }

  /** The graph as a value: plugin names, every edge endpoint, and the declared edges. */
  function GraphOf(ps: seq<Plugin>): (g: Digraph<Name>)
    ensures Closed(g)
  {
    Digraph(Names(ps) + Endpoints(DeclaredEdges(ps)), DeclaredEdges(ps))
  }

  /** The node labels: `setNode(name, plugin)` in order, so the last plugin of a name wins. */
  function LabelMap(ps: seq<Plugin>): (labels: map<Name, Plugin>)
    ensures labels.Keys == Names(ps)
    ensures forall n | n in labels :: labels[n].name == n && labels[n] in ps
  {
    if ps == [] then map[]
    else
      var init := ps[..|ps| - 1];
      assert ps == init + [ps[|ps| - 1]];
      LabelMap(init)[ps[|ps| - 1].name := ps[|ps| - 1]]
  }

  /** The graphlib Graph that bootstrap() mutates: nodes, edges, node labels. */
  class PluginGraph {
    var nodes: set<Name>
    var edges: set<Edge>
    var labels: map<Name, Plugin>

    /** `new Graph({ directed: true, multigraph: false, compound: false })` */
    constructor ()
      ensures nodes == {} && edges == {} && labels == map[]
    {
      nodes, edges, labels := {}, {}, map[];
    }

    /** `graph.setNode(name, plugin)`: adds the node, replacing an earlier label. */
    method SetNode(n: Name, plugin: Plugin)
      modifies this
      ensures nodes == old(nodes) + {n}
      ensures edges == old(edges) && labels == old(labels)[n := plugin]
    {
      nodes := nodes + {n};
      labels := labels[n := plugin];
    }

    /** `graph.setEdge(v, w)`: adds both endpoints; an edge already there stays one edge. */
    method SetEdge(v: Name, w: Name)
      modifies this
      ensures nodes == old(nodes) + {v, w}
      ensures edges == old(edges) + {(v, w)} && labels == old(labels)
    {
      nodes := nodes + {v, w};
      edges := edges + {(v, w)};
    }

    function Value(): Digraph<Name>
      reads this
    {
      Digraph(nodes, edges)
    }
  }

  lemma EndpointsAdd(edges: set<Edge>, v: Name, w: Name)
    ensures Endpoints(edges + {(v, w)}) == Endpoints(edges) + {v, w}
  {
    var es := edges + {(v, w)};
    assert (v, w) in es;
  }

  lemma DeclaredEdgesSnoc(ps: seq<Plugin>, p: Plugin)
    ensures DeclaredEdges(ps + [p]) == DeclaredEdges(ps) + PluginEdges(p)
  {
    var qs := ps + [p];
    forall e | e in DeclaredEdges(qs) ensures e in DeclaredEdges(ps) + PluginEdges(p) {
      var i :| 0 <= i < |qs| && e in PluginEdges(qs[i]);
      if i < |ps| {
        assert qs[i] == ps[i];
      }
    }
    forall e | e in DeclaredEdges(ps) + PluginEdges(p) ensures e in DeclaredEdges(qs) {
      if e in DeclaredEdges(ps) {
        var i :| 0 <= i < |ps| && e in PluginEdges(ps[i]);
        assert qs[i] == ps[i];
      } else {
        assert qs[|ps|] == p;
      }
    }
  }

  lemma NamesSnoc(ps: seq<Plugin>, p: Plugin)
    ensures Names(ps + [p]) == Names(ps) + {p.name}
  {
    var qs := ps + [p];
    assert p in qs;
    forall q | q in qs ensures q in ps || q == p {
      var i :| 0 <= i < |qs| && qs[i] == q;
      if i < |ps| { assert ps[i] == q; }
    }
  }

  lemma EndpointsUnion(a: set<Edge>, b: set<Edge>)
    ensures Endpoints(a + b) == Endpoints(a) + Endpoints(b)
  {
  }

  lemma EdgesFromSnoc(name: Name, targets: seq<Name>, b: Name)
    ensures EdgesFrom(name, targets + [b]) == EdgesFrom(name, targets) + {(name, b)}
  {
    assert b in targets + [b];
    forall x | x in targets + [b] ensures x in targets || x == b {
      var k :| 0 <= k < |targets + [b]| && (targets + [b])[k] == x;
      if k < |targets| { assert targets[k] == x; }
    }
    forall x | x in targets ensures x in targets + [b] {
      var k :| 0 <= k < |targets| && targets[k] == x;
      assert (targets + [b])[k] == x;
    }
  }

  lemma EdgesIntoSnoc(origins: seq<Name>, a: Name, name: Name)
    ensures EdgesInto(origins + [a], name) == EdgesInto(origins, name) + {(a, name)}
  {
    assert a in origins + [a];
    forall x | x in origins + [a] ensures x in origins || x == a {
      var k :| 0 <= k < |origins + [a]| && (origins + [a])[k] == x;
      if k < |origins| { assert origins[k] == x; }
    }
    forall x | x in origins ensures x in origins + [a] {
      var k :| 0 <= k < |origins| && origins[k] == x;
      assert (origins + [a])[k] == x;
    }
  }

  /** `before.forEach(b => graph.setEdge(name, b))` (src/bootstrap.ts:52) */
  method AddEdgesFrom(graph: PluginGraph, name: Name, targets: seq<Name>)
    modifies graph
    ensures graph.edges == old(graph.edges) + EdgesFrom(name, targets)
    ensures graph.nodes == old(graph.nodes) + Endpoints(EdgesFrom(name, targets))
    ensures graph.labels == old(graph.labels)
  {
    for j := 0 to |targets|
      invariant graph.edges == old(graph.edges) + EdgesFrom(name, targets[..j])
      invariant graph.nodes == old(graph.nodes) + Endpoints(EdgesFrom(name, targets[..j]))
      invariant graph.labels == old(graph.labels)
    {
      ghost var done := EdgesFrom(name, targets[..j]);
      assert targets[..j + 1] == targets[..j] + [targets[j]];
      EdgesFromSnoc(name, targets[..j], targets[j]);
      EndpointsAdd(done, name, targets[j]);
      graph.SetEdge(name, targets[j]);
    }
    assert targets[..|targets|] == targets;
  }

  /** `after.forEach(a => graph.setEdge(a, name))` (src/bootstrap.ts:53) */
  method AddEdgesInto(graph: PluginGraph, origins: seq<Name>, name: Name)
    modifies graph
    ensures graph.edges == old(graph.edges) + EdgesInto(origins, name)
    ensures graph.nodes == old(graph.nodes) + Endpoints(EdgesInto(origins, name))
    ensures graph.labels == old(graph.labels)
  {
    for j := 0 to |origins|
      invariant graph.edges == old(graph.edges) + EdgesInto(origins[..j], name)
      invariant graph.nodes == old(graph.nodes) + Endpoints(EdgesInto(origins[..j], name))
      invariant graph.labels == old(graph.labels)
    {
      ghost var done := EdgesInto(origins[..j], name);
      assert origins[..j + 1] == origins[..j] + [origins[j]];
      EdgesIntoSnoc(origins[..j], origins[j], name);
      EndpointsAdd(done, origins[j], name);
      graph.SetEdge(origins[j], name);
    }
    assert origins[..|origins|] == origins;
  }

  /** The `after` list once 'core' has been pushed onto it (src/bootstrap.ts:48-50). */
  lemma AnchoredAfterEdges(p: Plugin, after: seq<Name>)
    requires after == if AnchoredToCore(p) then p.after + [CORE] else p.after
    ensures EdgesInto(after, p.name)
         == AfterEdges(p) + (if AnchoredToCore(p) then {(CORE, p.name)} else {})
  {
    if AnchoredToCore(p) {
      assert CORE in after;
    }
  }

  /** The body of the loop of src/bootstrap.ts:40-54 for one plugin. */
  method AddPlugin(graph: PluginGraph, plugin: Plugin)
    modifies graph
    ensures graph.edges == old(graph.edges) + PluginEdges(plugin)
    ensures graph.nodes == old(graph.nodes) + {plugin.name} + Endpoints(PluginEdges(plugin))
    ensures graph.labels == old(graph.labels)[plugin.name := plugin]
  {
    var name := plugin.name;
    var before, after := plugin.before, plugin.after;
    graph.SetNode(name, plugin);
    if name != CORE && CORE !in after + before {
      after := after + [CORE];
    }
    AddEdgesFrom(graph, name, before);
    AddEdgesInto(graph, after, name);
    AnchoredAfterEdges(plugin, after);
    ghost var implicit := if AnchoredToCore(plugin) then {(CORE, plugin.name)} else {};
    EndpointsUnion(BeforeEdges(plugin), AfterEdges(plugin) + implicit);
    EndpointsUnion(BeforeEdges(plugin), AfterEdges(plugin));
    EndpointsUnion(BeforeEdges(plugin) + AfterEdges(plugin), implicit);
  }

  /**
    Lines 48-50 tie every plugin other than core to core by an edge: its own
    hint when it names core, the implicit core -> name otherwise. Core itself
    gets no implicit edge.
   */
  lemma CoreLinks(p: Plugin)
    ensures p.name != CORE ==> (CORE, p.name) in PluginEdges(p) || (p.name, CORE) in PluginEdges(p)
    ensures CORE in p.after ==> (CORE, p.name) in PluginEdges(p)
    ensures CORE in p.before ==> (p.name, CORE) in PluginEdges(p)
    ensures AnchoredToCore(p) <==> p.name != CORE && (CORE, p.name) !in AfterEdges(p) && (p.name, CORE) !in BeforeEdges(p)
  {
  }

  /**
    A `before` hint on p naming q declares the same edge as an `after` hint on
    q naming p, provided q is not core: adding either hint leaves the implicit
    core edges as they were, or replaces one by the same edge from a hint.
   */
  lemma HintSymmetry(p: Plugin, q: Plugin)
    requires q.name != CORE
    ensures PluginEdges(p.(before := p.before + [q.name])) + PluginEdges(q)
         == PluginEdges(p) + PluginEdges(q.(after := q.after + [p.name]))
  {
    EdgesFromSnoc(p.name, p.before, q.name);
    EdgesIntoSnoc(q.after, p.name, q.name);
    assert AnchoredToCore(p.(before := p.before + [q.name])) == AnchoredToCore(p);
  }

  /** Appending a plugin adds its name, its edges and their endpoints. */
  lemma GraphOfSnoc(ps: seq<Plugin>, p: Plugin)
    ensures GraphOf(ps + [p]).edges == GraphOf(ps).edges + PluginEdges(p)
    ensures GraphOf(ps + [p]).nodes == GraphOf(ps).nodes + {p.name} + Endpoints(PluginEdges(p))
  {
    DeclaredEdgesSnoc(ps, p);
    NamesSnoc(ps, p);
    EndpointsUnion(DeclaredEdges(ps), PluginEdges(p));
  }

  lemma LabelMapSnoc(ps: seq<Plugin>, p: Plugin)
    ensures LabelMap(ps + [p]) == LabelMap(ps)[p.name := p]
  {
    assert (ps + [p])[..|ps + [p]| - 1] == ps;
  }

  /**
    The loop of src/bootstrap.ts:40-54. It leaves the graph holding exactly
    the plugin names plus every edge endpoint as nodes, exactly the declared
    edges (each `before` name b gives name -> b, each `after` name a gives
    a -> name, and an unanchored non-core plugin gets core -> name), and the
    last plugin of each name as that node's label.
   */
  method BuildGraph(ps: seq<Plugin>) returns (graph: PluginGraph)
    ensures fresh(graph)
    ensures graph.Value() == GraphOf(ps)
    ensures graph.labels == LabelMap(ps)
  {
    graph := new PluginGraph();
    for i := 0 to |ps|
      invariant graph.edges == GraphOf(ps[..i]).edges
      invariant graph.nodes == GraphOf(ps[..i]).nodes
      invariant graph.labels == LabelMap(ps[..i])
    {
      ghost var done, next := ps[..i], ps[..i + 1];
      assert next == done + [ps[i]];
      GraphOfSnoc(done, ps[i]);
      LabelMapSnoc(done, ps[i]);
      AddPlugin(graph, ps[i]);
    }
    assert ps[..|ps|] == ps;
  }

  /**
    The scheduled nodes mapped to their labels (`graph.node(node)`). A node
    that only a hint created has no label, and destructuring it at
    src/bootstrap.ts:68 throws: Err names the first such node.
   */
  function OrderedPlugins(schedule: seq<Name>, labels: map<Name, Plugin>): (r: Result<seq<Plugin>, Name>)
    ensures r.Ok? <==> forall i | 0 <= i < |schedule| :: schedule[i] in labels
    ensures r.Ok? ==> |r.value| == |schedule| && forall i | 0 <= i < |schedule| :: r.value[i] == labels[schedule[i]]
    ensures r.Err? ==> r.error in schedule && r.error !in labels
  {
    if schedule == [] then Ok([])
    else if schedule[0] !in labels then Err(schedule[0])
    else
      match OrderedPlugins(schedule[1..], labels)
      case Ok(rest) => Ok([labels[schedule[0]]] + rest)
      case Err(n) => Err(n)
  }

  /**
    Which plugin labels a node: the last plugin in the sorted list that
    carries that name.
   */
  lemma {:induction false} LabelIsLastNamed(ps: seq<Plugin>, i: nat)
    requires i < |ps|
    requires forall j | i < j < |ps| :: ps[j].name != ps[i].name
    ensures ps[i].name in LabelMap(ps) && LabelMap(ps)[ps[i].name] == ps[i]
  {
    var init := ps[..|ps| - 1];
    if i < |ps| - 1 {
      LabelIsLastNamed(init, i);
    }
  }

  /**
    The edge set of src/bootstrap.ts:48-53 and nothing more: an edge is a
    `before` hint, an `after` hint, or the implicit core -> name of a plugin
    that mentions core nowhere.
   */
  lemma EdgesExactly(ps: seq<Plugin>, u: Name, v: Name)
    ensures (u, v) in GraphOf(ps).edges <==>
              exists i | 0 <= i < |ps| ::
                || (u == ps[i].name && v in ps[i].before)
                || (v == ps[i].name && u in ps[i].after)
                || (u == CORE && v == ps[i].name && AnchoredToCore(ps[i]))
  {
    if (u, v) in GraphOf(ps).edges {
      var i :| 0 <= i < |ps| && (u, v) in PluginEdges(ps[i]);
    }
    if exists i | 0 <= i < |ps| ::
         || (u == ps[i].name && v in ps[i].before)
         || (v == ps[i].name && u in ps[i].after)
         || (u == CORE && v == ps[i].name && AnchoredToCore(ps[i])) {
      var i :| 0 <= i < |ps| &&
         (|| (u == ps[i].name && v in ps[i].before)
          || (v == ps[i].name && u in ps[i].after)
          || (u == CORE && v == ps[i].name && AnchoredToCore(ps[i])));
      assert (u, v) in PluginEdges(ps[i]);
    }
  }

  /**
    The node set is the plugin names plus every name a hint mentions (core
    comes in through the implicit edges only when it is a plugin anyway).
   */
  lemma NodeSet(ps: seq<Plugin>)
    requires HasCore(ps)
    ensures GraphOf(ps).nodes == Names(ps) + HintNames(ps)
  {
    var i0 :| 0 <= i0 < |ps| && ps[i0].name == CORE;
    assert CORE in Names(ps);
    var edges := DeclaredEdges(ps);
    forall n | n in Endpoints(edges) ensures n in Names(ps) + HintNames(ps) {
      var e :| e in edges && (n == e.0 || n == e.1);
      var i :| 0 <= i < |ps| && e in PluginEdges(ps[i]);
      assert ps[i].name in Names(ps);
      if e in BeforeEdges(ps[i]) {
        var b :| b in ps[i].before && e == (ps[i].name, b);
        assert b in ps[i].before + ps[i].after;
      } else if e in AfterEdges(ps[i]) {
        var a :| a in ps[i].after && e == (a, ps[i].name);
        assert a in ps[i].before + ps[i].after;
      }
    }
    forall n | n in HintNames(ps) ensures n in Endpoints(edges) {
      var i :| 0 <= i < |ps| && n in ps[i].before + ps[i].after;
      if n in ps[i].before {
        assert (ps[i].name, n) in PluginEdges(ps[i]);
        assert (ps[i].name, n) in edges;
      } else {
        assert (n, ps[i].name) in PluginEdges(ps[i]);
        assert (n, ps[i].name) in edges;
      }
    }
  }

  /**
    When no plugin names 'core' in `before` and core declares no `after`,
    core has no incoming edge.
   */
  lemma CoreIsSource(ps: seq<Plugin>)
    requires HasCore(ps)
    requires forall i | 0 <= i < |ps| :: CORE !in ps[i].before
    requires forall i | 0 <= i < |ps| && ps[i].name == CORE :: ps[i].after == []
    ensures IsSource(GraphOf(ps), CORE)
  {
    var i0 :| 0 <= i0 < |ps| && ps[i0].name == CORE;
    assert CORE in Names(ps);
    forall e | e in DeclaredEdges(ps) ensures e.1 != CORE {
      var i :| 0 <= i < |ps| && e in PluginEdges(ps[i]);
      if e in BeforeEdges(ps[i]) {
        var b :| b in ps[i].before && e == (ps[i].name, b);
      }
    }
  }

  /**
    In a graph that passed validation (acyclic, one source), under the
    conditions of CoreIsSource every schedule begins with core.
   */
  lemma CoreScheduledFirst(ps: seq<Plugin>, schedule: seq<Name>)
    requires HasCore(ps)
    requires forall i | 0 <= i < |ps| :: CORE !in ps[i].before
    requires forall i | 0 <= i < |ps| && ps[i].name == CORE :: ps[i].after == []
    requires |Sources(GraphOf(ps))| == 1
    requires IsSchedule(schedule, GraphOf(ps))
    ensures |schedule| > 0 && schedule[0] == CORE
  {
    var g := GraphOf(ps);
    CoreIsSource(ps);
    assert CORE in Sources(g);
    assert Sources(g) == {CORE} by {
      assert |Sources(g) - {CORE}| == 0;
    }
    SourceScheduledFirst(schedule, g, CORE);
  }
}
