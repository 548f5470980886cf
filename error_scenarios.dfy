/**
  The plugin lists that bootstrap() rejects before any service is touched,
  run through the model: no plugins, no core, a cycle, a node that only a
  hint names, and a graph with two roots.
 */
module ErrorScenarios {
  import opened Plugins
  import opened Graphs
  import opened DependencyGraph
  import opened Bootstrap
  import opened ScenarioSupport

  /** An empty list is refused first (src/bootstrap.ts:27-31). */
  method EmptyFails() returns (error: BootError)
    ensures error == NoPlugins
  {
    var r, schedule := Bootstrap.Bootstrap([], Config(0));
    error := r.error;
  }

  // ---- no plugin is named core (src/__tests__/bootstrap.test.ts:12-24) ----

  const Lonely := Simple("plugin1", 0, [], [], 1)

  /** [plugin1] has no core and is refused (src/bootstrap.ts:33-35). */
  method NoCoreFails() returns (error: BootError)
    ensures error == NoCore
  {
    assert [Lonely][0].name != CORE;
    var r, schedule := Bootstrap.Bootstrap([Lonely], Config(0));
    error := r.error;
  }

  // ---- plugin1 before plugin2 and plugin2 before plugin1 ----

  const CycleCore := Simple(CORE, 0, [], [], 0)
  const CycleFirst := Simple("plugin1", 0, ["plugin2"], [], 1)
  const CycleSecond := Simple("plugin2", 0, ["plugin1"], [], 2)
  const CycleInput := [CycleCore, CycleFirst, CycleSecond]

  lemma CycleEdges()
    ensures PluginEdges(CycleCore) == {}
    ensures PluginEdges(CycleFirst) == {("plugin1", "plugin2"), (CORE, "plugin1")}
    ensures PluginEdges(CycleSecond) == {("plugin2", "plugin1"), (CORE, "plugin2")}
  {
    EdgesFromOne("plugin1", "plugin2");
    EdgesFromOne("plugin2", "plugin1");
  }

  const CycleDigraph := Digraph({CORE, "plugin1", "plugin2"},
    {("plugin1", "plugin2"), (CORE, "plugin1"), ("plugin2", "plugin1"), (CORE, "plugin2")})

  /** The unions that unfolding GraphOf one plugin at a time yields, term by term, are the scenario's sets. */
  lemma CycleSets()
    ensures Endpoints({("plugin1", "plugin2"), (CORE, "plugin1")}) == {CORE, "plugin1", "plugin2"}
    ensures Endpoints({("plugin2", "plugin1"), (CORE, "plugin2")}) == {CORE, "plugin1", "plugin2"}
    ensures {} + {CORE} + {} + {"plugin1"} + {CORE, "plugin1", "plugin2"} + {"plugin2"}
              + {CORE, "plugin1", "plugin2"} == CycleDigraph.nodes
    ensures {} + {} + {("plugin1", "plugin2"), (CORE, "plugin1")} + {("plugin2", "plugin1"), (CORE, "plugin2")}
         == CycleDigraph.edges
  {
  }

  lemma CycleSorted()
    ensures SortByPriority(CycleInput) == CycleInput
  {
    SortSortedIdentity(CycleInput);
  }

  lemma CycleGraph()
    ensures PluginGraphOf(CycleInput) == CycleDigraph
  {
    CycleSorted();
    GraphOfThree(CycleCore, CycleFirst, CycleSecond);
    CycleEdges();
    EndpointsNone();
    CycleSets();
  }

  /** The two hints point at each other: plugin1, plugin2, plugin1 is a cycle. */
  lemma CycleFound()
    ensures ValidList(CycleInput)
    ensures HasCycle(PluginGraphOf(CycleInput))
  {
    assert CycleInput[0].name == CORE;
    CycleGraph();
    TwoCycle(CycleDigraph, "plugin1", "plugin2");
  }

  /** A cycle is reported as "no root, or cycles" (src/bootstrap.ts:59-60). */
  method CycleFails() returns (error: BootError)
    ensures error == NoRootOrCycle
  {
    var r, schedule := Bootstrap.Bootstrap(CycleInput, Config(0));
    CycleFound();
    error := r.error;
  }

  // ---- plugin1 before itself ----

  const LoopCore := Simple(CORE, 0, [], [], 0)
  const LoopFirst := Simple("plugin1", 0, ["plugin1"], [], 1)
  const LoopInput := [LoopCore, LoopFirst]

  const LoopDigraph := Digraph({CORE, "plugin1"}, {("plugin1", "plugin1"), (CORE, "plugin1")})

  /** The unions that unfolding GraphOf one plugin at a time yields, term by term, are the scenario's sets. */
  lemma LoopSets()
    ensures Endpoints({("plugin1", "plugin1"), (CORE, "plugin1")}) == {CORE, "plugin1"}
    ensures {} + {CORE} + {} + {"plugin1"} + {CORE, "plugin1"} == LoopDigraph.nodes
    ensures {} + {} + {("plugin1", "plugin1"), (CORE, "plugin1")} == LoopDigraph.edges
  {
  }

  lemma LoopEdges()
    ensures PluginEdges(LoopCore) == {}
    ensures PluginEdges(LoopFirst) == {("plugin1", "plugin1"), (CORE, "plugin1")}
  {
    EdgesFromOne("plugin1", "plugin1");
  }

  lemma LoopSorted()
    ensures SortByPriority(LoopInput) == LoopInput
  {
    SortSortedIdentity(LoopInput);
  }

  lemma LoopGraph()
    ensures PluginGraphOf(LoopInput) == LoopDigraph
  {
    LoopSorted();
    GraphOfTwo(LoopCore, LoopFirst);
    LoopEdges();
    EndpointsNone();
    LoopSets();
  }

  /** setEdge(plugin1, plugin1) is a self-loop, which graphlib counts as a cycle. */
  lemma LoopFound()
    ensures ValidList(LoopInput)
    ensures HasCycle(PluginGraphOf(LoopInput))
  {
    assert LoopInput[0].name == CORE;
    LoopGraph();
    SelfLoop(LoopDigraph, "plugin1");
  }

  method LoopFails() returns (error: BootError)
    ensures error == NoRootOrCycle
  {
    var r, schedule := Bootstrap.Bootstrap(LoopInput, Config(0));
    LoopFound();
    error := r.error;
  }

  // ---- plugin1 before a name no plugin has ----

  const HintCore := Simple(CORE, 0, [], [], 0)
  const HintFirst := Simple("plugin1", 0, ["ghost"], [], 1)
  const HintInput := [HintCore, HintFirst]
  const HintDigraph := Digraph({CORE, "plugin1", "ghost"}, {(CORE, "plugin1"), ("plugin1", "ghost")})

  lemma HintEdges()
    ensures PluginEdges(HintCore) == {}
    ensures PluginEdges(HintFirst) == {("plugin1", "ghost"), (CORE, "plugin1")}
  {
    EdgesFromOne("plugin1", "ghost");
  }

  /** The unions that unfolding GraphOf one plugin at a time yields, term by term, are the scenario's sets. */
  lemma HintSets()
    ensures Endpoints({("plugin1", "ghost"), (CORE, "plugin1")}) == {CORE, "plugin1", "ghost"}
    ensures {} + {CORE} + {} + {"plugin1"} + {CORE, "plugin1", "ghost"} == HintDigraph.nodes
    ensures {} + {} + {("plugin1", "ghost"), (CORE, "plugin1")} == HintDigraph.edges
  {
  }

  /** setEdge creates the node ghost, which has no label. */
  lemma HintGraph()
    ensures PluginGraphOf(HintInput) == HintDigraph
  {
    SortSortedIdentity(HintInput);
    GraphOfTwo(HintCore, HintFirst);
    HintEdges();
    EndpointsNone();
    HintSets();
  }

  /** The chain core, plugin1, ghost passes the graph checks. */
  lemma HintDigraphFacts()
    ensures Sources(HintDigraph) == {CORE} && !HasCycle(HintDigraph)
  {
    var g := HintDigraph;
    var chain := [CORE, "plugin1", "ghost"];
    assert IsSchedule(chain, g);
    ScheduleExcludesCycle(chain, g);
    assert !IsSource(g, "plugin1") && !IsSource(g, "ghost");
  }

  lemma HintInputNames()
    ensures Names(HintInput) == {CORE, "plugin1"}
  {
    assert HintCore in HintInput && HintFirst in HintInput;
  }

  lemma HintChecks()
    ensures ValidList(HintInput) && Accepted(PluginGraphOf(HintInput))
    ensures "ghost" in PluginGraphOf(HintInput).nodes && "ghost" !in Names(HintInput)
    ensures forall n | n in PluginGraphOf(HintInput).nodes && n !in Names(HintInput) :: n == "ghost"
  {
    assert HintInput[0].name == CORE;
    HintGraph();
    HintDigraphFacts();
    HintInputNames();
  }

  /**
    bootstrap() on [core, plugin1] with plugin1 before ghost passes the graph
    checks and then fails on the label of ghost (src/bootstrap.ts:56, 68).
   */
  method HintFails() returns (error: BootError)
    ensures error == UnlabelledNode("ghost")
  {
    var r, schedule := Bootstrap.Bootstrap(HintInput, Config(0));
    HintChecks();
    error := r.error;
  }

  // ---- plugin1 after a name no plugin has ----

  const RootsCore := Simple(CORE, 0, [], [], 0)
  const RootsFirst := Simple("plugin1", 0, [], ["ghost"], 1)
  const RootsInput := [RootsCore, RootsFirst]
  const RootsDigraph := Digraph({CORE, "plugin1", "ghost"}, {(CORE, "plugin1"), ("ghost", "plugin1")})

  lemma RootsEdges()
    ensures PluginEdges(RootsCore) == {}
    ensures PluginEdges(RootsFirst) == {("ghost", "plugin1"), (CORE, "plugin1")}
  {
    EdgesIntoOne("ghost", "plugin1");
  }

  /** The unions that unfolding GraphOf one plugin at a time yields, term by term, are the scenario's sets. */
  lemma RootsSets()
    ensures Endpoints({("ghost", "plugin1"), (CORE, "plugin1")}) == {CORE, "plugin1", "ghost"}
    ensures {} + {CORE} + {} + {"plugin1"} + {CORE, "plugin1", "ghost"} == RootsDigraph.nodes
    ensures {} + {} + {("ghost", "plugin1"), (CORE, "plugin1")} == RootsDigraph.edges
  {
  }

  /** plugin1 is still anchored to core, so ghost and core are both roots. */
  lemma RootsGraph()
    ensures PluginGraphOf(RootsInput) == RootsDigraph
  {
    SortSortedIdentity(RootsInput);
    GraphOfTwo(RootsCore, RootsFirst);
    RootsEdges();
    EndpointsNone();
    RootsSets();
  }

  lemma RootsDigraphFacts()
    ensures Sources(RootsDigraph) == {CORE, "ghost"} && !HasCycle(RootsDigraph)
    ensures |Sources(RootsDigraph)| == 2
  {
    var g := RootsDigraph;
    var chain := [CORE, "ghost", "plugin1"];
    assert IsSchedule(chain, g);
    ScheduleExcludesCycle(chain, g);
    assert !IsSource(g, "plugin1") && IsSource(g, "ghost") && IsSource(g, CORE);
  }

  lemma RootsChecks()
    ensures ValidList(RootsInput)
    ensures Sources(PluginGraphOf(RootsInput)) != {} && !HasCycle(PluginGraphOf(RootsInput))
    ensures |Sources(PluginGraphOf(RootsInput))| == 2
  {
    assert RootsInput[0].name == CORE;
    RootsGraph();
    RootsDigraphFacts();
  }

  /** Two roots are refused with their count (src/bootstrap.ts:61-62). */
  method RootsFail() returns (error: BootError)
    ensures error == MultipleRoots(2)
  {
    var r, schedule := Bootstrap.Bootstrap(RootsInput, Config(0));
    RootsChecks();
    error := r.error;
  }
}
