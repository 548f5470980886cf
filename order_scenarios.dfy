/**
  The init-order situations of src/__tests__/bootstrap.test.ts run through
  the model: the graph bootstrap() builds for each plugin list, the
  schedules it admits, and the order in which the init hooks fire.
 */
module OrderScenarios {
  import opened Plugins
  import opened Graphs
  import opened DependencyGraph
  import opened PreludeFold
  import opened Services
  import opened Bootstrap
  import opened ScenarioSupport

  // ---- plugin2 declares `after: ['plugin1']` (src/__tests__/bootstrap.test.ts:48-78) ----

  const AfterCore := Simple(CORE, 10, [], [], 0)
  const AfterFirst := Simple("plugin1", 10, [], [], 1)
  const AfterSecond := Simple("plugin2", 10, [], ["plugin1"], 2)
  const AfterInput := [AfterSecond, AfterCore, AfterFirst]
  const AfterDigraph := Digraph({CORE, "plugin1", "plugin2"},
                                {(CORE, "plugin1"), (CORE, "plugin2"), ("plugin1", "plugin2")})

  lemma AfterPluginEdges()
    ensures PluginEdges(AfterSecond) == {("plugin1", "plugin2"), (CORE, "plugin2")}
    ensures PluginEdges(AfterCore) == {}
    ensures PluginEdges(AfterFirst) == {(CORE, "plugin1")}
  {
    EdgesIntoOne("plugin1", "plugin2");
  }

  /** Equal priorities: the sort keeps the input order. */
  lemma AfterSorted()
    ensures SortByPriority(AfterInput) == AfterInput
  {
    SortSortedIdentity(AfterInput);
  }

  /** The unions that unfolding GraphOf one plugin at a time yields, term by term, are the scenario's sets. */
  lemma AfterSets()
    ensures Endpoints({("plugin1", "plugin2"), (CORE, "plugin2")}) == {"plugin1", "plugin2", CORE}
    ensures Endpoints({(CORE, "plugin1")}) == {CORE, "plugin1"}
    ensures {} + {"plugin2"} + {"plugin1", "plugin2", CORE} + {CORE} + {} + {"plugin1"} + {CORE, "plugin1"}
         == AfterDigraph.nodes
    ensures {} + {("plugin1", "plugin2"), (CORE, "plugin2")} + {} + {(CORE, "plugin1")} == AfterDigraph.edges
  {
  }

  /** plugin2 after plugin1, both anchored to core: the graph bootstrap() builds. */
  lemma AfterGraph()
    ensures PluginGraphOf(AfterInput) == AfterDigraph
  {
    AfterSorted();
    GraphOfThree(AfterSecond, AfterCore, AfterFirst);
    AfterPluginEdges();
    EndpointsNone();
    AfterSets();
  }

  /** core is the only source, and the chain core, plugin1, plugin2 is the only schedule. */
  lemma AfterDigraphFacts(s: seq<Name>)
    ensures Sources(AfterDigraph) == {CORE} && !HasCycle(AfterDigraph)
    ensures IsSchedule(s, AfterDigraph) ==> s == [CORE, "plugin1", "plugin2"]
  {
    var g := AfterDigraph;
    var chain := [CORE, "plugin1", "plugin2"];
    assert IsSchedule(chain, g);
    ScheduleExcludesCycle(chain, g);
    assert !IsSource(g, "plugin1") && !IsSource(g, "plugin2");
    if IsSchedule(s, g) {
      ChainForcesSchedule(g, chain, s);
    }
  }

  /** Each name labels its only plugin. */
  lemma AfterLabels()
    ensures CORE in LabelMap(AfterInput) && LabelMap(AfterInput)[CORE] == AfterCore
    ensures "plugin1" in LabelMap(AfterInput) && LabelMap(AfterInput)["plugin1"] == AfterFirst
    ensures "plugin2" in LabelMap(AfterInput) && LabelMap(AfterInput)["plugin2"] == AfterSecond
  {
    LabelIsLastNamed(AfterInput, 0);
    LabelIsLastNamed(AfterInput, 1);
    LabelIsLastNamed(AfterInput, 2);
  }

  /** Along that schedule the labels are core, plugin1, plugin2. */
  lemma AfterOrdered()
    ensures Ordered(AfterInput, [CORE, "plugin1", "plugin2"]) == Ok([AfterCore, AfterFirst, AfterSecond])
  {
    AfterSorted();
    AfterLabels();
    OrderedThree(CORE, "plugin1", "plugin2", LabelMap(AfterInput));
  }

  /** Every plugin has a hook, and none defines a service. */
  lemma AfterRun()
    ensures InitHooks([AfterCore, AfterFirst, AfterSecond]) == [Hook(0), Hook(1), Hook(2)]
    ensures Fold(Initial(Config(0)), [AfterCore, AfterFirst, AfterSecond]).serviceDefinitions == map[]
  {
    InitHooksThree(AfterCore, AfterFirst, AfterSecond);
    FoldNoDefinitions(Initial(Config(0)), [AfterCore, AfterFirst, AfterSecond]);
  }

  lemma AfterValid()
    ensures ValidList(AfterInput)
  {
    assert AfterInput[1].name == CORE;
  }

  lemma AfterAccepted()
    ensures Sources(PluginGraphOf(AfterInput)) == {CORE} && !HasCycle(PluginGraphOf(AfterInput))
  {
    AfterGraph();
    AfterDigraphFacts([]);
  }

  lemma AfterAllLabelled()
    ensures forall n | n in PluginGraphOf(AfterInput).nodes :: n in Names(AfterInput)
  {
    AfterGraph();
    assert AfterCore in AfterInput && AfterFirst in AfterInput && AfterSecond in AfterInput;
  }

  lemma AfterStages(schedule: seq<Name>)
    requires IsSchedule(schedule, PluginGraphOf(AfterInput))
    ensures Ordered(AfterInput, schedule) == Ok([AfterCore, AfterFirst, AfterSecond])
    ensures Buildable(Fold(Initial(Config(0)), Ordered(AfterInput, schedule).value).serviceDefinitions)
    ensures InitHooks(Ordered(AfterInput, schedule).value) == [Hook(0), Hook(1), Hook(2)]
  {
    AfterGraph();
    AfterDigraphFacts(schedule);
    AfterOrdered();
    AfterRun();
  }

  lemma AfterChecksPass()
    ensures GraphChecksPass(AfterInput)
  {
    AfterValid();
    AfterAccepted();
    AfterAllLabelled();
    ChecksPassWhen(AfterInput, CORE);
  }

  lemma AfterEverySchedule()
    ensures BuildableOnEverySchedule(AfterInput, Config(0))
  {
    forall s | IsSchedule(s, PluginGraphOf(AfterInput))
      ensures Ordered(AfterInput, s).Ok?
      ensures Buildable(Fold(Initial(Config(0)), Ordered(AfterInput, s).value).serviceDefinitions)
    {
      AfterStages(s);
    }
  }

  /** Every check passes, nothing is required, and every schedule gives buildable services. */
  lemma AfterStartable()
    ensures GraphChecksPass(AfterInput) && RequiresNothing(AfterInput) && BuildableOnEverySchedule(AfterInput, Config(0))
  {
    AfterChecksPass();
    AfterEverySchedule();
    RequiresNothingThree(AfterSecond, AfterCore, AfterFirst);
  }

  /** bootstrap() on [plugin2, core, plugin1] starts and fires core, plugin1, plugin2. */
  method AfterOrder() returns (order: seq<Hook>)
    ensures order == [Hook(0), Hook(1), Hook(2)]
  {
    var r, schedule := Bootstrap.Bootstrap(AfterInput, Config(0));
    AfterStartable();
    AfterStages(schedule);
    HooksOfCalls(r.initCalls, InitHooks(Ordered(AfterInput, schedule).value), r.result);
    order := HooksCalled(r.initCalls);
  }

  // ---- plugin2 declares `before: ['plugin1']` (src/__tests__/bootstrap.test.ts:80-110) ----

  const BeforeCore := Simple(CORE, 10, [], [], 0)
  const BeforeFirst := Simple("plugin1", 10, [], [], 1)
  const BeforeSecond := Simple("plugin2", 10, ["plugin1"], [], 2)
  const BeforeInput := [BeforeSecond, BeforeCore, BeforeFirst]
  const BeforeDigraph := Digraph({CORE, "plugin1", "plugin2"},
                                 {(CORE, "plugin1"), (CORE, "plugin2"), ("plugin2", "plugin1")})

  lemma BeforePluginEdges()
    ensures PluginEdges(BeforeSecond) == {("plugin2", "plugin1"), (CORE, "plugin2")}
    ensures PluginEdges(BeforeCore) == {}
    ensures PluginEdges(BeforeFirst) == {(CORE, "plugin1")}
  {
    EdgesFromOne("plugin2", "plugin1");
  }

  lemma BeforeSorted()
    ensures SortByPriority(BeforeInput) == BeforeInput
  {
    SortSortedIdentity(BeforeInput);
  }

  /** The unions that unfolding GraphOf one plugin at a time yields, term by term, are the scenario's sets. */
  lemma BeforeSets()
    ensures Endpoints({("plugin2", "plugin1"), (CORE, "plugin2")}) == {"plugin1", "plugin2", CORE}
    ensures Endpoints({(CORE, "plugin1")}) == {CORE, "plugin1"}
    ensures {} + {"plugin2"} + {"plugin1", "plugin2", CORE} + {CORE} + {} + {"plugin1"} + {CORE, "plugin1"}
         == BeforeDigraph.nodes
    ensures {} + {("plugin2", "plugin1"), (CORE, "plugin2")} + {} + {(CORE, "plugin1")} == BeforeDigraph.edges
  {
  }

  /** plugin2 before plugin1, both anchored to core: the graph bootstrap() builds. */
  lemma BeforeGraph()
    ensures PluginGraphOf(BeforeInput) == BeforeDigraph
  {
    BeforeSorted();
    GraphOfThree(BeforeSecond, BeforeCore, BeforeFirst);
    BeforePluginEdges();
    EndpointsNone();
    BeforeSets();
  }

  /** core is the only source, and the chain core, plugin2, plugin1 is the only schedule. */
  lemma BeforeDigraphFacts(s: seq<Name>)
    ensures Sources(BeforeDigraph) == {CORE} && !HasCycle(BeforeDigraph)
    ensures IsSchedule(s, BeforeDigraph) ==> s == [CORE, "plugin2", "plugin1"]
  {
    var g := BeforeDigraph;
    var chain := [CORE, "plugin2", "plugin1"];
    assert IsSchedule(chain, g);
    ScheduleExcludesCycle(chain, g);
    assert !IsSource(g, "plugin1") && !IsSource(g, "plugin2");
    if IsSchedule(s, g) {
      ChainForcesSchedule(g, chain, s);
    }
  }

  lemma BeforeLabels()
    ensures CORE in LabelMap(BeforeInput) && LabelMap(BeforeInput)[CORE] == BeforeCore
    ensures "plugin1" in LabelMap(BeforeInput) && LabelMap(BeforeInput)["plugin1"] == BeforeFirst
    ensures "plugin2" in LabelMap(BeforeInput) && LabelMap(BeforeInput)["plugin2"] == BeforeSecond
  {
    LabelIsLastNamed(BeforeInput, 0);
    LabelIsLastNamed(BeforeInput, 1);
    LabelIsLastNamed(BeforeInput, 2);
  }

  lemma BeforeOrdered()
    ensures Ordered(BeforeInput, [CORE, "plugin2", "plugin1"]) == Ok([BeforeCore, BeforeSecond, BeforeFirst])
  {
    BeforeSorted();
    BeforeLabels();
    OrderedThree(CORE, "plugin2", "plugin1", LabelMap(BeforeInput));
  }

  lemma BeforeRun()
    ensures InitHooks([BeforeCore, BeforeSecond, BeforeFirst]) == [Hook(0), Hook(2), Hook(1)]
    ensures Fold(Initial(Config(0)), [BeforeCore, BeforeSecond, BeforeFirst]).serviceDefinitions == map[]
  {
    InitHooksThree(BeforeCore, BeforeSecond, BeforeFirst);
    FoldNoDefinitions(Initial(Config(0)), [BeforeCore, BeforeSecond, BeforeFirst]);
  }

  lemma BeforeValid()
    ensures ValidList(BeforeInput)
  {
    assert BeforeInput[1].name == CORE;
  }

  lemma BeforeAccepted()
    ensures Sources(PluginGraphOf(BeforeInput)) == {CORE} && !HasCycle(PluginGraphOf(BeforeInput))
  {
    BeforeGraph();
    BeforeDigraphFacts([]);
  }

  lemma BeforeAllLabelled()
    ensures forall n | n in PluginGraphOf(BeforeInput).nodes :: n in Names(BeforeInput)
  {
    BeforeGraph();
    assert BeforeCore in BeforeInput && BeforeFirst in BeforeInput && BeforeSecond in BeforeInput;
  }

  lemma BeforeStages(schedule: seq<Name>)
    requires IsSchedule(schedule, PluginGraphOf(BeforeInput))
    ensures Ordered(BeforeInput, schedule) == Ok([BeforeCore, BeforeSecond, BeforeFirst])
    ensures Buildable(Fold(Initial(Config(0)), Ordered(BeforeInput, schedule).value).serviceDefinitions)
    ensures InitHooks(Ordered(BeforeInput, schedule).value) == [Hook(0), Hook(2), Hook(1)]
  {
    BeforeGraph();
    BeforeDigraphFacts(schedule);
    BeforeOrdered();
    BeforeRun();
  }

  lemma BeforeChecksPass()
    ensures GraphChecksPass(BeforeInput)
  {
    BeforeValid();
    BeforeAccepted();
    BeforeAllLabelled();
    ChecksPassWhen(BeforeInput, CORE);
  }

  lemma BeforeEverySchedule()
    ensures BuildableOnEverySchedule(BeforeInput, Config(0))
  {
    forall s | IsSchedule(s, PluginGraphOf(BeforeInput))
      ensures Ordered(BeforeInput, s).Ok?
      ensures Buildable(Fold(Initial(Config(0)), Ordered(BeforeInput, s).value).serviceDefinitions)
    {
      BeforeStages(s);
    }
  }

  /** Every check passes, nothing is required, and every schedule gives buildable services. */
  lemma BeforeStartable()
    ensures GraphChecksPass(BeforeInput) && RequiresNothing(BeforeInput) && BuildableOnEverySchedule(BeforeInput, Config(0))
  {
    BeforeChecksPass();
    BeforeEverySchedule();
    RequiresNothingThree(BeforeSecond, BeforeCore, BeforeFirst);
  }

  /** bootstrap() on [plugin2, core, plugin1] starts and fires core, plugin2, plugin1. */
  method BeforeOrder() returns (order: seq<Hook>)
    ensures order == [Hook(0), Hook(2), Hook(1)]
  {
    var r, schedule := Bootstrap.Bootstrap(BeforeInput, Config(0));
    BeforeStartable();
    BeforeStages(schedule);
    HooksOfCalls(r.initCalls, InitHooks(Ordered(BeforeInput, schedule).value), r.result);
    order := HooksCalled(r.initCalls);
  }

  // ---- priorities 10, 11, 12 and no hints (src/__tests__/bootstrap.test.ts:112-139) ----

  const PriorityCore := Simple(CORE, 10, [], [], 0)
  const PriorityFirst := Simple("plugin1", 11, [], [], 1)
  const PrioritySecond := Simple("plugin2", 12, [], [], 2)
  const PriorityInput := [PrioritySecond, PriorityFirst, PriorityCore]
  const PrioritySorted := [PriorityCore, PriorityFirst, PrioritySecond]
  const Unprioritised := Plugin("plugin1", Unset, [], [], [], map[], None, Some(Hook(1)))
  const PriorityDigraph := Digraph({CORE, "plugin1", "plugin2"}, {(CORE, "plugin1"), (CORE, "plugin2")})

  /** The sort puts the list in ascending priority. */
  lemma PrioritySort()
    ensures SortByPriority(PriorityInput) == PrioritySorted
  {
    var tail := [PriorityFirst, PriorityCore];
    assert PriorityInput[1..] == tail;
    assert tail[1..] == [PriorityCore];
    assert [PriorityCore][1..] == [];
    assert SortByPriority([PriorityCore]) == [PriorityCore];
    assert Insert(PriorityFirst, [PriorityCore]) == [PriorityCore, PriorityFirst];
    assert SortByPriority(tail) == [PriorityCore, PriorityFirst];
    assert [PriorityCore, PriorityFirst][1..] == [PriorityFirst];
    assert Insert(PrioritySecond, [PriorityFirst]) == [PriorityFirst, PrioritySecond];
  }

  /** A plugin without a priority is sorted after one that has a priority, whatever the input order. */
  lemma UnsetSortsLast()
    ensures SortByPriority([Unprioritised, PriorityCore]) == [PriorityCore, Unprioritised]
  {
    assert [Unprioritised, PriorityCore][1..] == [PriorityCore];
    assert [PriorityCore][1..] == [];
    assert SortByPriority([PriorityCore]) == [PriorityCore];
    assert !NotAfter(Unset, PriorityCore.priority);
  }

  lemma PriorityPluginEdges()
    ensures PluginEdges(PriorityCore) == {}
    ensures PluginEdges(PriorityFirst) == {(CORE, "plugin1")}
    ensures PluginEdges(PrioritySecond) == {(CORE, "plugin2")}
  {
  }

  /** The unions that unfolding GraphOf one plugin at a time yields, term by term, are the scenario's sets. */
  lemma PrioritySets()
    ensures Endpoints({(CORE, "plugin1")}) == {CORE, "plugin1"}
    ensures Endpoints({(CORE, "plugin2")}) == {CORE, "plugin2"}
    ensures {} + {CORE} + {} + {"plugin1"} + {CORE, "plugin1"} + {"plugin2"} + {CORE, "plugin2"}
         == PriorityDigraph.nodes
    ensures {} + {} + {(CORE, "plugin1")} + {(CORE, "plugin2")} == PriorityDigraph.edges
  {
  }

  /** Without hints both plugins hang off core and are unordered among themselves. */
  lemma PriorityGraph()
    ensures PluginGraphOf(PriorityInput) == PriorityDigraph
  {
    PrioritySort();
    GraphOfThree(PriorityCore, PriorityFirst, PrioritySecond);
    PriorityPluginEdges();
    EndpointsNone();
    PrioritySets();
  }

  /**
    core is the only source, and the graph admits exactly two schedules:
    the priorities do not decide between plugin1 and plugin2.
   */
  lemma PriorityDigraphFacts(s: seq<Name>)
    ensures Sources(PriorityDigraph) == {CORE} && !HasCycle(PriorityDigraph)
    ensures IsSchedule([CORE, "plugin1", "plugin2"], PriorityDigraph)
    ensures IsSchedule([CORE, "plugin2", "plugin1"], PriorityDigraph)
    ensures IsSchedule(s, PriorityDigraph) ==>
              s == [CORE, "plugin1", "plugin2"] || s == [CORE, "plugin2", "plugin1"]
  {
    var g := PriorityDigraph;
    assert IsSchedule([CORE, "plugin1", "plugin2"], g);
    assert IsSchedule([CORE, "plugin2", "plugin1"], g);
    ScheduleExcludesCycle([CORE, "plugin1", "plugin2"], g);
    assert !IsSource(g, "plugin1") && !IsSource(g, "plugin2");
    if IsSchedule(s, g) {
      ScheduleLength(s, g);
      SourceScheduledFirst(s, g, CORE);
      assert s[1] in g.nodes && s[2] in g.nodes;
      assert s[1] != CORE && s[2] != CORE && s[1] != s[2];
    }
  }

  lemma PriorityLabels()
    ensures CORE in LabelMap(PrioritySorted) && LabelMap(PrioritySorted)[CORE] == PriorityCore
    ensures "plugin1" in LabelMap(PrioritySorted) && LabelMap(PrioritySorted)["plugin1"] == PriorityFirst
    ensures "plugin2" in LabelMap(PrioritySorted) && LabelMap(PrioritySorted)["plugin2"] == PrioritySecond
  {
    LabelIsLastNamed(PrioritySorted, 0);
    LabelIsLastNamed(PrioritySorted, 1);
    LabelIsLastNamed(PrioritySorted, 2);
  }

  lemma PriorityOrdered()
    ensures Ordered(PriorityInput, [CORE, "plugin1", "plugin2"]) == Ok([PriorityCore, PriorityFirst, PrioritySecond])
    ensures Ordered(PriorityInput, [CORE, "plugin2", "plugin1"]) == Ok([PriorityCore, PrioritySecond, PriorityFirst])
  {
    PrioritySort();
    PriorityLabels();
    OrderedThree(CORE, "plugin1", "plugin2", LabelMap(PrioritySorted));
    OrderedThree(CORE, "plugin2", "plugin1", LabelMap(PrioritySorted));
  }

  lemma PriorityRun()
    ensures InitHooks([PriorityCore, PriorityFirst, PrioritySecond]) == [Hook(0), Hook(1), Hook(2)]
    ensures InitHooks([PriorityCore, PrioritySecond, PriorityFirst]) == [Hook(0), Hook(2), Hook(1)]
    ensures Fold(Initial(Config(0)), [PriorityCore, PriorityFirst, PrioritySecond]).serviceDefinitions == map[]
    ensures Fold(Initial(Config(0)), [PriorityCore, PrioritySecond, PriorityFirst]).serviceDefinitions == map[]
  {
    InitHooksThree(PriorityCore, PriorityFirst, PrioritySecond);
    InitHooksThree(PriorityCore, PrioritySecond, PriorityFirst);
    FoldNoDefinitions(Initial(Config(0)), [PriorityCore, PriorityFirst, PrioritySecond]);
    FoldNoDefinitions(Initial(Config(0)), [PriorityCore, PrioritySecond, PriorityFirst]);
  }

  lemma PriorityValid()
    ensures ValidList(PriorityInput)
  {
    assert PriorityInput[2].name == CORE;
  }

  lemma PriorityAccepted()
    ensures Sources(PluginGraphOf(PriorityInput)) == {CORE} && !HasCycle(PluginGraphOf(PriorityInput))
  {
    PriorityGraph();
    PriorityDigraphFacts([]);
  }

  lemma PriorityAllLabelled()
    ensures forall n | n in PluginGraphOf(PriorityInput).nodes :: n in Names(PriorityInput)
  {
    PriorityGraph();
    assert PriorityCore in PriorityInput && PriorityFirst in PriorityInput && PrioritySecond in PriorityInput;
  }

  lemma PriorityStages(schedule: seq<Name>)
    requires IsSchedule(schedule, PluginGraphOf(PriorityInput))
    ensures Ordered(PriorityInput, schedule).Ok?
    ensures Buildable(Fold(Initial(Config(0)), Ordered(PriorityInput, schedule).value).serviceDefinitions)
    ensures InitHooks(Ordered(PriorityInput, schedule).value) == [Hook(0), Hook(1), Hook(2)]
         || InitHooks(Ordered(PriorityInput, schedule).value) == [Hook(0), Hook(2), Hook(1)]
  {
    PriorityGraph();
    PriorityDigraphFacts(schedule);
    PriorityOrdered();
    PriorityRun();
  }

  lemma PriorityChecksPass()
    ensures GraphChecksPass(PriorityInput)
  {
    PriorityValid();
    PriorityAccepted();
    PriorityAllLabelled();
    ChecksPassWhen(PriorityInput, CORE);
  }

  lemma PriorityEverySchedule()
    ensures BuildableOnEverySchedule(PriorityInput, Config(0))
  {
    forall s | IsSchedule(s, PluginGraphOf(PriorityInput))
      ensures Ordered(PriorityInput, s).Ok?
      ensures Buildable(Fold(Initial(Config(0)), Ordered(PriorityInput, s).value).serviceDefinitions)
    {
      PriorityStages(s);
    }
  }

  /** Every check passes, nothing is required, and every schedule gives buildable services. */
  lemma PriorityStartable()
    ensures GraphChecksPass(PriorityInput) && RequiresNothing(PriorityInput) && BuildableOnEverySchedule(PriorityInput, Config(0))
  {
    PriorityChecksPass();
    PriorityEverySchedule();
    RequiresNothingThree(PrioritySecond, PriorityFirst, PriorityCore);
  }

  /**
    bootstrap() on [plugin2, plugin1, core] starts and fires core first; the
    two others follow in an order the graph leaves open.
   */
  method PriorityOrder() returns (order: seq<Hook>)
    ensures order == [Hook(0), Hook(1), Hook(2)] || order == [Hook(0), Hook(2), Hook(1)]
  {
    var r, schedule := Bootstrap.Bootstrap(PriorityInput, Config(0));
    PriorityStartable();
    PriorityStages(schedule);
    HooksOfCalls(r.initCalls, InitHooks(Ordered(PriorityInput, schedule).value), r.result);
    order := HooksCalled(r.initCalls);
  }
}
