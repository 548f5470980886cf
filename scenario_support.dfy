/**
  Small facts used to compute what bootstrap() does on concrete plugin
  lists: the graph of a short list plugin by plugin, the labels along a
  short schedule, and the init hooks actually called.
 */
module ScenarioSupport {
  import opened Plugins
  import opened Graphs
  import opened DependencyGraph
  import opened PreludeFold
  import opened Services
  import opened Bootstrap

  /** A plugin with only a name, a whole priority, ordering hints and an init hook. */
  function Simple(name: Name, priority: int, before: seq<Name>, after: seq<Name>, hook: nat): Plugin {
    Plugin(name, Given(priority as real), before, after, [], map[], None, Some(Hook(hook)))
  }

  /** The hooks of a run's init calls, in call order. */
  function HooksCalled(calls: seq<HookCall>): (hooks: seq<Hook>)
    ensures |hooks| == |calls| && forall i | 0 <= i < |calls| :: hooks[i] == calls[i].hook
  {
    if calls == [] then [] else [calls[0].hook] + HooksCalled(calls[1..])
  }

  /** Calls made one per hook, in order, have exactly those hooks. */
  lemma HooksOfCalls(calls: seq<HookCall>, hooks: seq<Hook>, result: BootstrapResult)
    requires |calls| == |hooks|
    requires forall i | 0 <= i < |calls| :: calls[i] == HookCall(hooks[i], result)
    ensures HooksCalled(calls) == hooks
  {
  }

  lemma EdgesFromOne(name: Name, b: Name)
    ensures EdgesFrom(name, [b]) == {(name, b)}
  {
    assert b in [b];
  }

  lemma EdgesIntoOne(a: Name, name: Name)
    ensures EdgesInto([a], name) == {(a, name)}
  {
    assert a in [a];
  }

  lemma EndpointsNone()
    ensures Endpoints({}) == {}
  {
  }

  lemma {:induction false} GraphOfOne(a: Plugin)
    ensures GraphOf([a]).nodes == {} + {a.name} + Endpoints(PluginEdges(a))
    ensures GraphOf([a]).edges == {} + PluginEdges(a)
  {
    var none: seq<Plugin> := [];
    assert none + [a] == [a];
    assert GraphOf(none).nodes == {} && GraphOf(none).edges == {};
    GraphOfSnoc(none, a);
  }

  lemma {:induction false} GraphOfTwo(a: Plugin, b: Plugin)
    ensures GraphOf([a, b]).nodes
         == {} + {a.name} + Endpoints(PluginEdges(a)) + {b.name} + Endpoints(PluginEdges(b))
    ensures GraphOf([a, b]).edges == {} + PluginEdges(a) + PluginEdges(b)
  {
    assert [a] + [b] == [a, b];
    GraphOfOne(a);
    GraphOfSnoc([a], b);
  }

  lemma {:induction false} GraphOfThree(a: Plugin, b: Plugin, c: Plugin)
    ensures GraphOf([a, b, c]).nodes
         == {} + {a.name} + Endpoints(PluginEdges(a)) + {b.name} + Endpoints(PluginEdges(b))
               + {c.name} + Endpoints(PluginEdges(c))
    ensures GraphOf([a, b, c]).edges == {} + PluginEdges(a) + PluginEdges(b) + PluginEdges(c)
  {
    assert [a, b] + [c] == [a, b, c];
    GraphOfTwo(a, b);
    GraphOfSnoc([a, b], c);
  }

  lemma InitHooksTwo(a: Plugin, b: Plugin)
    requires a.init.Some? && b.init.Some?
    ensures InitHooks([a, b]) == [a.init.value, b.init.value]
  {
    assert [a, b][1..] == [b];
    assert [b][1..] == [];
    assert InitHooks([b]) == [b.init.value];
  }

  lemma InitHooksThree(a: Plugin, b: Plugin, c: Plugin)
    requires a.init.Some? && b.init.Some? && c.init.Some?
    ensures InitHooks([a, b, c]) == [a.init.value, b.init.value, c.init.value]
  {
    assert [a, b, c][1..] == [b, c];
    InitHooksTwo(b, c);
  }

  lemma OrderedOne(x: Name, labels: map<Name, Plugin>)
    requires x in labels
    ensures OrderedPlugins([x], labels) == Ok([labels[x]])
  {
    var s := [x];
    var r := OrderedPlugins(s, labels);
    assert s[0] in labels;
    assert r.Ok? && |r.value| == 1 && r.value[0] == labels[s[0]];
    assert r.value == [labels[x]];
  }

  lemma OrderedTwo(x: Name, y: Name, labels: map<Name, Plugin>)
    requires x in labels && y in labels
    ensures OrderedPlugins([x, y], labels) == Ok([labels[x], labels[y]])
  {
    var s := [x, y];
    assert s[0] in labels && s[1] in labels;
    var r := OrderedPlugins(s, labels);
    assert r.Ok? && |r.value| == 2 && r.value[0] == labels[s[0]] && r.value[1] == labels[s[1]];
    assert r.value == [labels[x], labels[y]];
  }

  lemma OrderedThree(x: Name, y: Name, z: Name, labels: map<Name, Plugin>)
    requires x in labels && y in labels && z in labels
    ensures OrderedPlugins([x, y, z], labels) == Ok([labels[x], labels[y], labels[z]])
  {
    var s := [x, y, z];
    assert s[0] in labels && s[1] in labels && s[2] in labels;
    var r := OrderedPlugins(s, labels);
    assert r.Ok? && |r.value| == 3;
    assert r.value[0] == labels[s[0]] && r.value[1] == labels[s[1]] && r.value[2] == labels[s[2]];
    assert r.value == [labels[x], labels[y], labels[z]];
  }

  /** Plugins that define no service leave the merged definitions as they were. */
  lemma {:induction false} FoldNoDefinitions(acc: Prelude, ps: seq<Plugin>)
    requires forall i | 0 <= i < |ps| :: ps[i].serviceDefinitions == map[]
    ensures Fold(acc, ps).serviceDefinitions == acc.serviceDefinitions
    decreases ps
  {
    if ps != [] {
      assert ps[0].serviceDefinitions == map[];
      assert MergeStep(acc, ps[0]).serviceDefinitions == acc.serviceDefinitions;
      FoldNoDefinitions(MergeStep(acc, ps[0]), ps[1..]);
    }
  }

  /** No plugin declares `dependsOn.services`, so the check on the sorted list reports nothing. */
  lemma NothingRequired(ps: seq<Plugin>)
    requires forall i | 0 <= i < |ps| :: ps[i].requiredServices.None?
    ensures forall defs :: MissingServices(SortByPriority(ps), defs) == []
  {
    SortedRequirements(ps);
    forall defs: map<Name, ServiceDefinition> ensures MissingServices(SortByPriority(ps), defs) == [] {
      MissingServicesNonEmptyIff(SortByPriority(ps), defs);
    }
  }

  lemma FoldOne(acc: Prelude, a: Plugin)
    ensures Fold(acc, [a]) == MergeStep(acc, a)
  {
    assert [a][1..] == [];
  }

  lemma FoldTwo(acc: Prelude, a: Plugin, b: Plugin)
    ensures Fold(acc, [a, b]) == MergeStep(MergeStep(acc, a), b)
  {
    assert [a, b][1..] == [b];
    FoldOne(MergeStep(acc, a), b);
  }

  /** A map with the one key k is the display map[k := m[k]]. */
  lemma MapOfOne<K, V>(m: map<K, V>, k: K)
    requires m.Keys == {k}
    ensures m == map[k := m[k]]
  {
  }

  /** The graph checks pass once the list is valid, the graph has one source and no cycle, and every node is labelled. */
  lemma ChecksPassWhen(plugins: seq<Plugin>, root: Name)
    requires ValidList(plugins)
    requires Sources(PluginGraphOf(plugins)) == {root} && !HasCycle(PluginGraphOf(plugins))
    requires forall n | n in PluginGraphOf(plugins).nodes :: n in Names(plugins)
    ensures GraphChecksPass(plugins)
  {
  }

  lemma RequiresNothingOne(a: Plugin)
    requires a.requiredServices.None?
    ensures RequiresNothing([a])
  {
  }

  lemma RequiresNothingTwo(a: Plugin, b: Plugin)
    requires a.requiredServices.None? && b.requiredServices.None?
    ensures RequiresNothing([a, b])
  {
  }

  lemma RequiresNothingThree(a: Plugin, b: Plugin, c: Plugin)
    requires a.requiredServices.None? && b.requiredServices.None? && c.requiredServices.None?
    ensures RequiresNothing([a, b, c])
  {
  }

  lemma SortOne(p: Plugin)
    ensures SortByPriority([p]) == [p]
  {
    assert [p][1..] == [];
  }

  /** A plugin without `dependsOn.services` adds no scan. */
  lemma ScansSkip(p: Plugin, ps: seq<Plugin>, impls: set<Name>)
    requires p.requiredServices.None?
    ensures Scans([p] + ps, impls) == Scans(ps, impls)
  {
    assert ([p] + ps)[1..] == ps;
  }

  lemma ScansOne(p: Plugin, impls: set<Name>)
    requires p.requiredServices.Some?
    ensures Scans([p], impls) == [MissingEntry(p.name, Unimplemented(p.requiredServices.value, impls))]
  {
    assert [p][1..] == [];
  }

  lemma UnimplementedOne(s: Name, impls: set<Name>)
    ensures Unimplemented([s], impls) == if s in impls then [] else [s]
  {
    assert [s][1..] == [];
  }

  /** The implemented services of a one-service map. */
  lemma ServiceImplsOne(k: Name, def: ServiceDefinition)
    ensures ServiceImpls(map[k := def]) == if def.implementation.Some? then {k} else {}
  {
  }

  /** Two edges pointing at each other close a cycle. */
  lemma TwoCycle<T(!new)>(g: Digraph<T>, a: T, b: T)
    requires (a, b) in g.edges && (b, a) in g.edges
    ensures HasCycle(g)
  {
    assert IsPath(g, [a, b, a]);
  }

  /** An edge from a node to itself is a cycle. */
  lemma SelfLoop<T(!new)>(g: Digraph<T>, a: T)
    requires (a, a) in g.edges
    ensures HasCycle(g)
  {
    assert IsPath(g, [a, a]);
  }
}
