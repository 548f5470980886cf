/**
  The service situations run through the model: how the merged service
  definitions and the instantiated services come out, and when the
  missing-service check or a builder-less service stops bootstrap().
 */
module ServiceScenarios {
  import opened Plugins
  import opened Graphs
  import opened DependencyGraph
  import opened PreludeFold
  import opened Services
  import opened Bootstrap
  import opened ScenarioSupport

  // ---- core and plugin1 each define a service (src/__tests__/bootstrap.test.ts:141-173) ----

  const TestService := ServiceDefinition(Some(["value1"]), Some(Implementation(None, Some(Builder(0)))))
  const Web3Service := ServiceDefinition(Some(["value2"]), None)
  const ConfigCore := Plugin(CORE, Given(10.0), [], [], [], map["testService" := TestService], None, None)
  const ConfigFirst := Plugin("plugin1", Given(11.0), [], [], [], map["web3" := Web3Service], None, None)
  const ConfigInput := [ConfigCore, ConfigFirst]
  const ConfigDigraph := Digraph({CORE, "plugin1"}, {(CORE, "plugin1")})
  const ConfigDefinitions := map["testService" := TestService, "web3" := Web3Service]

  lemma ConfigSorted()
    ensures SortByPriority(ConfigInput) == ConfigInput
  {
    SortSortedIdentity(ConfigInput);
  }

  lemma ConfigPluginEdges()
    ensures PluginEdges(ConfigCore) == {}
    ensures PluginEdges(ConfigFirst) == {(CORE, "plugin1")}
  {
  }

  /** The unions that unfolding GraphOf one plugin at a time yields, term by term, are the scenario's sets. */
  lemma ConfigSets()
    ensures Endpoints({(CORE, "plugin1")}) == {CORE, "plugin1"}
    ensures {} + {CORE} + {} + {"plugin1"} + {CORE, "plugin1"} == ConfigDigraph.nodes
    ensures {} + {} + {(CORE, "plugin1")} == ConfigDigraph.edges
  {
  }

  lemma ConfigGraph()
    ensures PluginGraphOf(ConfigInput) == ConfigDigraph
  {
    ConfigSorted();
    GraphOfTwo(ConfigCore, ConfigFirst);
    ConfigPluginEdges();
    EndpointsNone();
    ConfigSets();
  }

  lemma ConfigDigraphFacts(s: seq<Name>)
    ensures Sources(ConfigDigraph) == {CORE} && !HasCycle(ConfigDigraph)
    ensures IsSchedule(s, ConfigDigraph) ==> s == [CORE, "plugin1"]
  {
    var g := ConfigDigraph;
    var chain := [CORE, "plugin1"];
    assert IsSchedule(chain, g);
    ScheduleExcludesCycle(chain, g);
    assert !IsSource(g, "plugin1");
    if IsSchedule(s, g) {
      ChainForcesSchedule(g, chain, s);
    }
  }

  lemma ConfigOrdered()
    ensures Ordered(ConfigInput, [CORE, "plugin1"]) == Ok([ConfigCore, ConfigFirst])
  {
    ConfigSorted();
    LabelIsLastNamed(ConfigInput, 0);
    LabelIsLastNamed(ConfigInput, 1);
    OrderedTwo(CORE, "plugin1", LabelMap(ConfigInput));
  }

  /**
    Each service keeps the definition of the one plugin that has it: the
    fold does not combine the two `config` lists.
   */
  lemma ConfigFold()
    ensures Fold(Initial(Config(0)), [ConfigCore, ConfigFirst]).serviceDefinitions == ConfigDefinitions
  {
    FoldTwo(Initial(Config(0)), ConfigCore, ConfigFirst);
  }

  lemma ConfigImpls()
    ensures ServiceImpls(ConfigDefinitions) == {"testService"}
    ensures Buildable(ConfigDefinitions)
  {
    assert ConfigDefinitions["web3"].implementation.None?;
  }

  lemma ConfigStages(schedule: seq<Name>)
    requires IsSchedule(schedule, PluginGraphOf(ConfigInput))
    ensures Ordered(ConfigInput, schedule) == Ok([ConfigCore, ConfigFirst])
    ensures Fold(Initial(Config(0)), Ordered(ConfigInput, schedule).value).serviceDefinitions == ConfigDefinitions
    ensures ServiceImpls(ConfigDefinitions) == {"testService"}
    ensures Buildable(ConfigDefinitions)
  {
    ConfigGraph();
    ConfigDigraphFacts(schedule);
    ConfigOrdered();
    ConfigFold();
    ConfigImpls();
  }

  lemma ConfigChecksPass()
    ensures GraphChecksPass(ConfigInput)
  {
    assert ConfigInput[0].name == CORE;
    ConfigGraph();
    ConfigDigraphFacts([]);
    assert ConfigCore in ConfigInput && ConfigFirst in ConfigInput;
    ChecksPassWhen(ConfigInput, CORE);
  }

  lemma ConfigEverySchedule()
    ensures BuildableOnEverySchedule(ConfigInput, Config(0))
  {
    forall s | IsSchedule(s, PluginGraphOf(ConfigInput))
      ensures Ordered(ConfigInput, s).Ok?
      ensures Buildable(Fold(Initial(Config(0)), Ordered(ConfigInput, s).value).serviceDefinitions)
    {
      ConfigStages(s);
    }
  }

  lemma ConfigStartable()
    ensures GraphChecksPass(ConfigInput) && RequiresNothing(ConfigInput) && BuildableOnEverySchedule(ConfigInput, Config(0))
  {
    ConfigChecksPass();
    ConfigEverySchedule();
    RequiresNothingTwo(ConfigCore, ConfigFirst);
  }

  /**
    bootstrap() on [core, plugin1] starts; testService, the only service
    with an implementation, is built by its singleton called with its own
    config ['value1'], and web3 keeps ['value2'] without being built.
   */
  method ConfigMerged() returns (definitions: map<Name, ServiceDefinition>, factories: map<Name, Instance>)
    ensures definitions == ConfigDefinitions
    ensures factories == map["testService" := Called(Builder(0), Some(["value1"]))]
  {
    var r, schedule := Bootstrap.Bootstrap(ConfigInput, Config(0));
    ConfigStartable();
    ConfigStages(schedule);
    definitions, factories := r.result.serviceDefinitions, r.result.serviceFactories;
    assert Build(TestService, TestService.implementation.value) == Some(Called(Builder(0), Some(["value1"])));
    MapOfOne(factories, "testService");
  }

  // ---- core requires a service nobody defines (src/__tests__/bootstrap.test.ts:26-46) ----

  const NeedyFirst := Plugin("plugin1", Given(10.0), [], [], [], map[], None, None)
  const NeedyCore := Plugin(CORE, Given(10.0), [], [], [], map[], Some(["decoder"]), None)
  const NeedyInput := [NeedyFirst, NeedyCore]
  const NeedyDigraph := Digraph({CORE, "plugin1"}, {(CORE, "plugin1")})

  lemma NeedySorted()
    ensures SortByPriority(NeedyInput) == NeedyInput
  {
    SortSortedIdentity(NeedyInput);
  }

  lemma NeedyPluginEdges()
    ensures PluginEdges(NeedyFirst) == {(CORE, "plugin1")}
    ensures PluginEdges(NeedyCore) == {}
  {
  }

  /** The unions that unfolding GraphOf one plugin at a time yields, term by term, are the scenario's sets. */
  lemma NeedySets()
    ensures Endpoints({(CORE, "plugin1")}) == {CORE, "plugin1"}
    ensures {} + {"plugin1"} + {CORE, "plugin1"} + {CORE} + {} == NeedyDigraph.nodes
    ensures {} + {(CORE, "plugin1")} + {} == NeedyDigraph.edges
  {
  }

  lemma NeedyGraph()
    ensures PluginGraphOf(NeedyInput) == NeedyDigraph
  {
    NeedySorted();
    GraphOfTwo(NeedyFirst, NeedyCore);
    NeedyPluginEdges();
    EndpointsNone();
    NeedySets();
  }

  lemma NeedyDigraphFacts(s: seq<Name>)
    ensures Sources(NeedyDigraph) == {CORE} && !HasCycle(NeedyDigraph)
    ensures IsSchedule(s, NeedyDigraph) ==> s == [CORE, "plugin1"]
  {
    var g := NeedyDigraph;
    var chain := [CORE, "plugin1"];
    assert IsSchedule(chain, g);
    ScheduleExcludesCycle(chain, g);
    assert !IsSource(g, "plugin1");
    if IsSchedule(s, g) {
      ChainForcesSchedule(g, chain, s);
    }
  }

  lemma NeedyOrdered()
    ensures Ordered(NeedyInput, [CORE, "plugin1"]) == Ok([NeedyCore, NeedyFirst])
  {
    NeedySorted();
    LabelIsLastNamed(NeedyInput, 0);
    LabelIsLastNamed(NeedyInput, 1);
    OrderedTwo(CORE, "plugin1", LabelMap(NeedyInput));
  }

  /** Nothing defines decoder, so the check reports it against core. */
  lemma NeedyMissing()
    ensures Fold(Initial(Config(0)), [NeedyCore, NeedyFirst]).serviceDefinitions == map[]
    ensures MissingServices(NeedyInput, map[]) == [MissingEntry(CORE, ["decoder"])]
  {
    FoldNoDefinitions(Initial(Config(0)), [NeedyCore, NeedyFirst]);
    var impls := ServiceImpls(map[]);
    assert impls == {};
    UnimplementedOne("decoder", impls);
    ScansOne(NeedyCore, impls);
    assert NeedyInput == [NeedyFirst] + [NeedyCore];
    ScansSkip(NeedyFirst, [NeedyCore], impls);
    KeepTruthyKeepsAll(Scans(NeedyInput, impls));
  }

  lemma NeedyStages(schedule: seq<Name>)
    requires IsSchedule(schedule, PluginGraphOf(NeedyInput))
    ensures Ordered(NeedyInput, schedule) == Ok([NeedyCore, NeedyFirst])
    ensures MissingServices(SortByPriority(NeedyInput),
              Fold(Initial(Config(0)), Ordered(NeedyInput, schedule).value).serviceDefinitions)
         == [MissingEntry(CORE, ["decoder"])]
  {
    NeedyGraph();
    NeedyDigraphFacts(schedule);
    NeedyOrdered();
    NeedySorted();
    NeedyMissing();
  }

  /** The graph checks pass and core declares `dependsOn.services`. */
  lemma NeedyChecks()
    ensures GraphChecksPass(NeedyInput) && !RequiresNothing(NeedyInput)
  {
    assert NeedyInput[1].name == CORE;
    NeedyGraph();
    NeedyDigraphFacts([]);
    assert NeedyCore in NeedyInput && NeedyFirst in NeedyInput;
    ChecksPassWhen(NeedyInput, CORE);
    assert NeedyInput[1].requiredServices.Some?;
  }

  /** bootstrap() on [plugin1, core] stops at the check: decoder, required by core. */
  method NeedyFails() returns (error: BootError)
    ensures error == ServicesMissing([MissingEntry(CORE, ["decoder"])])
  {
    var r, schedule := Bootstrap.Bootstrap(NeedyInput, Config(0));
    NeedyChecks();
    NeedyStages(schedule);
    error := r.error;
  }

  // ---- the line 78 filter keeps a scan with nothing missing (src/bootstrap.ts:75-84) ----

  const SelfService := ServiceDefinition(None, Some(Implementation(None, Some(Builder(1)))))
  const SelfCore := Plugin(CORE, Given(10.0), [], [], [], map["testService" := SelfService], Some(["testService"]), None)
  const SelfInput := [SelfCore]
  /** The graph of a list holding core alone. */
  const CoreOnly := Digraph({CORE}, {})

  lemma CoreOnlyFacts(s: seq<Name>)
    ensures Sources(CoreOnly) == {CORE} && !HasCycle(CoreOnly)
    ensures IsSchedule(s, CoreOnly) ==> s == [CORE]
  {
    var g := CoreOnly;
    var chain := [CORE];
    assert IsSchedule(chain, g);
    ScheduleExcludesCycle(chain, g);
    if IsSchedule(s, g) {
      ChainForcesSchedule(g, chain, s);
    }
  }

  lemma SelfGraph()
    ensures PluginGraphOf(SelfInput) == CoreOnly
  {
    SortOne(SelfCore);
    GraphOfOne(SelfCore);
    assert PluginEdges(SelfCore) == {};
    EndpointsNone();
  }

  /**
    testService is defined and implemented, so nothing is missing, and yet
    the check reports core with an empty list.
   */
  lemma SelfMissing()
    ensures MissingServices(SelfInput, map["testService" := SelfService]) == [MissingEntry(CORE, [])]
  {
    var impls := ServiceImpls(map["testService" := SelfService]);
    ServiceImplsOne("testService", SelfService);
    UnimplementedOne("testService", impls);
    ScansOne(SelfCore, impls);
    KeepTruthyKeepsAll(Scans(SelfInput, impls));
  }

  lemma SelfDefinitions()
    ensures Ordered(SelfInput, [CORE]) == Ok([SelfCore])
    ensures Fold(Initial(Config(0)), [SelfCore]).serviceDefinitions == map["testService" := SelfService]
  {
    SortOne(SelfCore);
    LabelIsLastNamed(SelfInput, 0);
    OrderedOne(CORE, LabelMap(SelfInput));
    FoldOne(Initial(Config(0)), SelfCore);
  }

  lemma SelfStages(schedule: seq<Name>)
    requires IsSchedule(schedule, PluginGraphOf(SelfInput))
    ensures Ordered(SelfInput, schedule) == Ok([SelfCore])
    ensures MissingServices(SortByPriority(SelfInput),
              Fold(Initial(Config(0)), Ordered(SelfInput, schedule).value).serviceDefinitions)
         == [MissingEntry(CORE, [])]
  {
    SelfGraph();
    CoreOnlyFacts(schedule);
    SelfDefinitions();
    SortOne(SelfCore);
    SelfMissing();
  }

  lemma SelfChecks()
    ensures GraphChecksPass(SelfInput) && !RequiresNothing(SelfInput)
  {
    assert SelfInput[0].name == CORE;
    SelfGraph();
    CoreOnlyFacts([]);
    assert SelfCore in SelfInput;
    ChecksPassWhen(SelfInput, CORE);
    assert SelfInput[0].requiredServices.Some?;
  }

  /** bootstrap() on [core] fails although core's only requirement is met. */
  method SatisfiedStillFails() returns (error: BootError)
    ensures error == ServicesMissing([MissingEntry(CORE, [])])
  {
    var r, schedule := Bootstrap.Bootstrap(SelfInput, Config(0));
    SelfChecks();
    SelfStages(schedule);
    error := r.error;
  }

  // ---- an implementation with neither factory nor singleton (src/bootstrap.ts:94-97) ----

  const BrokenService := ServiceDefinition(None, Some(Implementation(None, None)))
  const BrokenCore := Plugin(CORE, Given(10.0), [], [], [], map["broken" := BrokenService], None, None)
  const BrokenInput := [BrokenCore]

  lemma BrokenGraph()
    ensures PluginGraphOf(BrokenInput) == CoreOnly
  {
    SortOne(BrokenCore);
    GraphOfOne(BrokenCore);
    assert PluginEdges(BrokenCore) == {};
    EndpointsNone();
  }

  lemma BrokenDefinitions()
    ensures Ordered(BrokenInput, [CORE]) == Ok([BrokenCore])
    ensures Fold(Initial(Config(0)), [BrokenCore]).serviceDefinitions == map["broken" := BrokenService]
    ensures !Buildable(map["broken" := BrokenService])
  {
    SortOne(BrokenCore);
    LabelIsLastNamed(BrokenInput, 0);
    OrderedOne(CORE, LabelMap(BrokenInput));
    FoldOne(Initial(Config(0)), BrokenCore);
    var defs := map["broken" := BrokenService];
    assert "broken" in defs && defs["broken"].implementation.Some?;
    assert Build(defs["broken"], defs["broken"].implementation.value).None?;
  }

  lemma BrokenStages(schedule: seq<Name>)
    requires IsSchedule(schedule, PluginGraphOf(BrokenInput))
    ensures Ordered(BrokenInput, schedule) == Ok([BrokenCore])
    ensures Fold(Initial(Config(0)), Ordered(BrokenInput, schedule).value).serviceDefinitions
         == map["broken" := BrokenService]
    ensures !Buildable(map["broken" := BrokenService])
  {
    BrokenGraph();
    CoreOnlyFacts(schedule);
    BrokenDefinitions();
  }

  lemma BrokenChecks()
    ensures GraphChecksPass(BrokenInput) && RequiresNothing(BrokenInput)
  {
    assert BrokenInput[0].name == CORE;
    BrokenGraph();
    CoreOnlyFacts([]);
    assert BrokenCore in BrokenInput;
    ChecksPassWhen(BrokenInput, CORE);
    RequiresNothingOne(BrokenCore);
  }

  /** bootstrap() on [core] fails naming the service it cannot build. */
  method BrokenFails() returns (error: BootError)
    ensures error == MissingBuilder("broken")
  {
    var r, schedule := Bootstrap.Bootstrap(BrokenInput, Config(0));
    BrokenChecks();
    BrokenStages(schedule);
    error := r.error;
  }
}
