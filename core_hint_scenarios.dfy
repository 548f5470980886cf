/**
  A hint between plugin1 and core, written once as plugin1's `before` and
  once as core's `after`. The two spellings declare the same edge
  plugin1 -> core, but only the second leaves plugin1 naming core nowhere,
  so only the second gets the implicit core -> plugin1 of src/bootstrap.ts:48-50.
 */
module CoreHintScenarios {
  import opened Plugins
  import opened Graphs
  import opened DependencyGraph
  import opened PreludeFold
  import opened Services
  import opened Bootstrap
  import opened ScenarioSupport

  // ---- plugin1 declares `before: ['core']` ----

  const BeforeCore := Simple(CORE, 0, [], [], 0)
  const BeforeFirst := Simple("plugin1", 0, [CORE], [], 1)
  const BeforeInput := [BeforeCore, BeforeFirst]
  const BeforeDigraph := Digraph({CORE, "plugin1"}, {("plugin1", CORE)})

  lemma BeforePluginEdges()
    ensures PluginEdges(BeforeCore) == {}
    ensures PluginEdges(BeforeFirst) == {("plugin1", CORE)}
  {
    EdgesFromOne("plugin1", CORE);
  }

  /** The unions that unfolding GraphOf one plugin at a time yields, term by term, are the scenario's sets. */
  lemma BeforeSets()
    ensures Endpoints({("plugin1", CORE)}) == {"plugin1", CORE}
    ensures {} + {CORE} + {} + {"plugin1"} + {"plugin1", CORE} == BeforeDigraph.nodes
    ensures {} + {} + {("plugin1", CORE)} == BeforeDigraph.edges
  {
  }

  /** plugin1 names core, so it gets no implicit edge: the only edge is plugin1 -> core. */
  lemma BeforeGraph()
    ensures PluginGraphOf(BeforeInput) == BeforeDigraph
  {
    SortSortedIdentity(BeforeInput);
    GraphOfTwo(BeforeCore, BeforeFirst);
    BeforePluginEdges();
    EndpointsNone();
    BeforeSets();
  }

  /** plugin1 is the only source, and plugin1, core is the only schedule. */
  lemma BeforeDigraphFacts(s: seq<Name>)
    ensures Sources(BeforeDigraph) == {"plugin1"} && !HasCycle(BeforeDigraph)
    ensures IsSchedule(s, BeforeDigraph) ==> s == ["plugin1", CORE]
  {
    var g := BeforeDigraph;
    var chain := ["plugin1", CORE];
    assert IsSchedule(chain, g);
    ScheduleExcludesCycle(chain, g);
    assert !IsSource(g, CORE);
    if IsSchedule(s, g) {
      ChainForcesSchedule(g, chain, s);
    }
  }

  lemma BeforeChecksPass()
    ensures GraphChecksPass(BeforeInput)
  {
    assert BeforeInput[0].name == CORE;
    BeforeGraph();
    BeforeDigraphFacts([]);
    assert BeforeCore in BeforeInput && BeforeFirst in BeforeInput;
    ChecksPassWhen(BeforeInput, "plugin1");
  }

  /** Each name labels its only plugin. */
  lemma BeforeLabels()
    ensures CORE in LabelMap(BeforeInput) && LabelMap(BeforeInput)[CORE] == BeforeCore
    ensures "plugin1" in LabelMap(BeforeInput) && LabelMap(BeforeInput)["plugin1"] == BeforeFirst
  {
    LabelIsLastNamed(BeforeInput, 0);
    LabelIsLastNamed(BeforeInput, 1);
  }

  /** Along that schedule the labels are plugin1, core. */
  lemma BeforeOrdered()
    ensures Ordered(BeforeInput, ["plugin1", CORE]) == Ok([BeforeFirst, BeforeCore])
  {
    SortSortedIdentity(BeforeInput);
    BeforeLabels();
    OrderedTwo("plugin1", CORE, LabelMap(BeforeInput));
  }

  /** Both plugins have a hook, and neither defines a service. */
  lemma BeforeRun()
    ensures InitHooks([BeforeFirst, BeforeCore]) == [Hook(1), Hook(0)]
    ensures Fold(Initial(Config(0)), [BeforeFirst, BeforeCore]).serviceDefinitions == map[]
  {
    InitHooksTwo(BeforeFirst, BeforeCore);
    FoldNoDefinitions(Initial(Config(0)), [BeforeFirst, BeforeCore]);
  }

  lemma BeforeStages(schedule: seq<Name>)
    requires IsSchedule(schedule, PluginGraphOf(BeforeInput))
    ensures Ordered(BeforeInput, schedule) == Ok([BeforeFirst, BeforeCore])
    ensures Buildable(Fold(Initial(Config(0)), Ordered(BeforeInput, schedule).value).serviceDefinitions)
    ensures InitHooks(Ordered(BeforeInput, schedule).value) == [Hook(1), Hook(0)]
  {
    BeforeGraph();
    BeforeDigraphFacts(schedule);
    BeforeOrdered();
    BeforeRun();
  }

  /** Every check passes, nothing is required, and every schedule gives buildable services. */
  lemma BeforeStartable()
    ensures GraphChecksPass(BeforeInput) && RequiresNothing(BeforeInput)
    ensures BuildableOnEverySchedule(BeforeInput, Config(0))
  {
    BeforeChecksPass();
    RequiresNothingTwo(BeforeCore, BeforeFirst);
    forall s | IsSchedule(s, PluginGraphOf(BeforeInput))
      ensures Ordered(BeforeInput, s).Ok?
      ensures Buildable(Fold(Initial(Config(0)), Ordered(BeforeInput, s).value).serviceDefinitions)
    {
      BeforeStages(s);
    }
  }

  /**
    bootstrap() on [core, plugin1] with plugin1 before core passes the graph
    checks and starts, and plugin1's hook fires before core's.
   */
  method CoreAsBeforeTarget() returns (order: seq<Hook>)
    ensures order == [Hook(1), Hook(0)]
  {
    var r, schedule := Bootstrap.Bootstrap(BeforeInput, Config(0));
    BeforeStartable();
    BeforeStages(schedule);
    HooksOfCalls(r.initCalls, InitHooks(Ordered(BeforeInput, schedule).value), r.result);
    order := HooksCalled(r.initCalls);
  }

  // ---- core declares `after: ['plugin1']` ----

  const AfterCore := Simple(CORE, 0, [], ["plugin1"], 0)
  const AfterFirst := Simple("plugin1", 0, [], [], 1)
  const AfterInput := [AfterCore, AfterFirst]
  const AfterDigraph := Digraph({CORE, "plugin1"}, {("plugin1", CORE), (CORE, "plugin1")})

  lemma AfterPluginEdges()
    ensures PluginEdges(AfterCore) == {("plugin1", CORE)}
    ensures PluginEdges(AfterFirst) == {(CORE, "plugin1")}
  {
    EdgesIntoOne("plugin1", CORE);
  }

  /** The unions that unfolding GraphOf one plugin at a time yields, term by term, are the scenario's sets. */
  lemma AfterSets()
    ensures Endpoints({("plugin1", CORE)}) == {"plugin1", CORE}
    ensures Endpoints({(CORE, "plugin1")}) == {CORE, "plugin1"}
    ensures {} + {CORE} + {"plugin1", CORE} + {"plugin1"} + {CORE, "plugin1"} == AfterDigraph.nodes
    ensures {} + {("plugin1", CORE)} + {(CORE, "plugin1")} == AfterDigraph.edges
  {
  }

  /**
    The same edge plugin1 -> core, now from core's `after`; plugin1 names core
    nowhere, so line 49 also gives it core -> plugin1.
   */
  lemma AfterGraph()
    ensures PluginGraphOf(AfterInput) == AfterDigraph
  {
    SortSortedIdentity(AfterInput);
    GraphOfTwo(AfterCore, AfterFirst);
    AfterPluginEdges();
    AfterSets();
  }

  lemma AfterFound()
    ensures ValidList(AfterInput)
    ensures HasCycle(PluginGraphOf(AfterInput))
  {
    assert AfterInput[0].name == CORE;
    AfterGraph();
    TwoCycle(AfterDigraph, "plugin1", CORE);
  }

  /**
    bootstrap() on [core, plugin1] with core after plugin1 fails with "no
    root, or cycles" (src/bootstrap.ts:59-60), although the hint is the
    mirror image of the one above.
   */
  method CoreAsAfterSource() returns (error: BootError)
    ensures error == NoRootOrCycle
  {
    var r, schedule := Bootstrap.Bootstrap(AfterInput, Config(0));
    AfterFound();
    error := r.error;
  }
}
