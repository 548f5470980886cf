# EthQL plugin bootstrap, modelled in Dafny

EthQL assembles its GraphQL server from plugins. `bootstrap()` in
`src/bootstrap.ts` takes the plugin descriptors and does the following, in order:

1. It refuses an empty list and a list without a plugin named `core`.
2. It sorts the plugins stably by `priority`.
3. It builds a directed "must initialise before" graph with graphlib:
   - `before` hints give edges `name -> b`;
   - `after` hints give edges `a -> name`;
   - a plugin that mentions core nowhere gets an implicit `core -> name`;
   - a hint naming no plugin still creates a node.
4. It refuses a graph with no source, with a cycle, or with several sources.
5. It folds the plugins' contributions in topological order. The service
   definition accumulated so far wins over a later plugin's.
6. It refuses to start when a plugin's required services are missing.
7. It calls each implemented service's factory, or failing that its
   singleton, with that service's own configuration.
8. It runs every plugin's `init` hook in topological order. Each hook gets
   the finished result.

The model follows that pipeline module by module:

- `Plugins`: the plugin descriptor and the stable priority sort. A missing
  `priority` sorts after every number, as lodash's ascending comparison does.
- `Graphs`: digraphs, sources, cycles, reachability and schedules (linear
  extensions). It also holds Kahn's algorithm standing in for
  `alg.topsort` and `alg.isAcyclic`.
- `DependencyGraph`: the graphlib `Graph` as a class with `setNode` and
  `setEdge`, with the loop of lines 40-54 that fills it. It is proved equal
  to a reference definition of the node set, the edge set and the labels.
- `PreludeFold`: the `_.merge(curr, prev)` fold of lines 65-69.
- `Services`: the missing-service check of lines 71-84 and the
  instantiation loop of lines 90-99.
- `Bootstrap`: the whole of `bootstrap()`. It returns either the result
  with the recorded `init` calls, or the error it throws.
- `ScenarioSupport`, `OrderScenarios`, `ServiceScenarios`, `ErrorScenarios`:
  the situations of `src/__tests__/bootstrap.test.ts`, plus one scenario for
  each error path, computed through `Bootstrap.Bootstrap`.
- `CoreHintScenarios`: a hint between plugin1 and core, written as
  plugin1's `before` and as core's `after`, with the two outcomes.

The model lets the schedule be any topological order of the graph, since the
order graphlib itself picks is not modelled. `Bootstrap.Bootstrap` therefore
returns the schedule it used as a ghost value, and its contract holds
whichever schedule that is. Where a scenario's graph admits only one
schedule, the order of the `init` calls is proved exactly.

Where the code departs from its tests or its evident intent, the model
follows the code:

- Line 68 projects plugins to `schema`, while the prelude and line 86
  read `schemas`. The schema list handed on is therefore always empty
  (`PreludeFold.FoldLeavesSchemas`).
- Line 78 filters on `scan.missing`, an array and so always truthy. Every
  scan is kept, so any plugin that declares `dependsOn.services` stops
  bootstrap, even when all its services are implemented
  (`Services.KeepTruthyKeepsAll`, `ServiceScenarios.SatisfiedStillFails`).
- Lines 95-97 pass each service its own merged `config`. The configuration
  test (src/__tests__/bootstrap.test.ts:141-173) expects the singleton to
  see `['value1', 'value2']`. The code hands it `['value1']`, and
  `ServiceScenarios.ConfigMerged` states that value.
- `before` and `after` are meant as two spellings of one ordering:
  A with `before: [B]` should act like B with `after: [A]`. For the edges
  they declare this holds whenever B is not core
  (`DependencyGraph.HintSymmetry`). It fails when B is core. A plugin that
  names core in its own `before` gets no implicit edge, and
  [core, plugin1 before core] starts with plugin1's hook first
  (`CoreHintScenarios.CoreAsBeforeTarget`). With core `after: ['plugin1']`
  instead, plugin1 names core nowhere, so line 49 adds core -> plugin1 as
  well, and the 2-cycle fails at line 59 (`CoreHintScenarios.CoreAsAfterSource`).
- A `before` or `after` hint naming the plugin itself is a self-loop,
  and graphlib counts a self-loop as a cycle (`ErrorScenarios.LoopFails`).
- A hint naming no plugin makes an unlabelled node. `graph.node` then
  yields `undefined` at line 56, and destructuring it at line 68 throws.
  The model reports this as `UnlabelledNode` (`ErrorScenarios.HintFails`).

## Model

| member | source | states |
|---|---|---|
| Plugins.FindCore | src/bootstrap.ts:33 | `_.find` finds a plugin exactly when some plugin is named core, and what it finds is the first plugin so named. |
| Plugins.SortByPriority | src/bootstrap.ts:37 | The sorted list is a permutation of the input and ascends by priority, with plugins lacking a priority last. |
| Plugins.SortStable | src/bootstrap.ts:37 | `_.sortBy` is stable: plugins of equal priority keep their input order. |
| Plugins.SortSortedIdentity | src/bootstrap.ts:37 | A list already in priority order comes out unchanged. |
| Plugins.SortKeepsMembers | src/bootstrap.ts:37 | A plugin is in the sorted list exactly when it is in the input. |
| OrderScenarios.UnsetSortsLast | src/bootstrap.ts:37 | A plugin without a priority is sorted after core, which has one, although it comes first in the input. |
| Graphs.TopSort | src/bootstrap.ts:56 | Kahn's algorithm with any choice of ready node. Some result is a schedule: every node once, and A before B for every edge A -> B. None means the graph has a cycle. |
| Graphs.IsAcyclic | src/bootstrap.ts:59 | True exactly when the graph has no cycle. |
| Graphs.ScheduleExcludesCycle | src/bootstrap.ts:56-59 | A graph that has a schedule has no cycle. |
| Graphs.StuckImpliesCycle | src/bootstrap.ts:59 | A non-empty node set, each member of which has a predecessor inside it, contains a cycle. This is what leaves Kahn's algorithm stuck. |
| Graphs.NoSourceImpliesCycle | src/bootstrap.ts:58-60 | A non-empty graph without a source has a cycle, so both halves of the line 59 test catch cyclic graphs. |
| Graphs.SingleSourceReachesAll | src/bootstrap.ts:58-63 | In an acyclic graph with one source, every node is reachable from that source. |
| Graphs.SourceScheduledFirst | src/bootstrap.ts:56-63 | Every schedule of a graph whose only source is src starts with src. |
| Graphs.ChainForcesSchedule | src/bootstrap.ts:56 | If a chain of edges visits every node, it is the only schedule. |
| Graphs.FirstIsSource | src/bootstrap.ts:56-58 | Every schedule of a closed graph starts at one of `graph.sources()`. |
| Graphs.ScheduleLength | src/bootstrap.ts:56 | A schedule lists as many entries as the graph has nodes. |
| DependencyGraph.PluginGraph.constructor | src/bootstrap.ts:38 | The new graph has no nodes, no edges and no labels. |
| DependencyGraph.PluginGraph.SetNode | src/bootstrap.ts:46 | `setNode` adds the node and sets its label, and leaves the edges alone. |
| DependencyGraph.PluginGraph.SetEdge | src/bootstrap.ts:52-53 | `setEdge` adds the edge and both endpoints as nodes. Edges form a set (no multigraph), and the labels are untouched. |
| DependencyGraph.CoreLinks | src/bootstrap.ts:48-50 | Every plugin other than core is joined to core by an edge: its own hint when it names core, the implicit core -> name otherwise. The implicit edge is added exactly when the plugin is not core and no hint of its own links it to core. |
| DependencyGraph.HintSymmetry | src/bootstrap.ts:48-53 | A `before` hint on p naming q declares the same edges as an `after` hint on q naming p, whenever q is not core. |
| DependencyGraph.AddEdgesFrom | src/bootstrap.ts:52 | The `before` loop adds exactly the edges name -> b for the hints b. |
| DependencyGraph.AddEdgesInto | src/bootstrap.ts:53 | The `after` loop adds exactly the edges a -> name for the hints a. |
| DependencyGraph.AddPlugin | src/bootstrap.ts:41-53 | One iteration of the loop adds the plugin's name and label, its hint edges, the implicit core -> name edge when the plugin mentions core nowhere, and every endpoint. |
| DependencyGraph.BuildGraph | src/bootstrap.ts:38-54 | The filled graph equals the reference nodes and edges, and its labels equal the reference label map. |
| DependencyGraph.GraphOf | src/bootstrap.ts:40-54 | The reference graph is closed: every edge endpoint is a node. |
| DependencyGraph.EdgesExactly | src/bootstrap.ts:48-53 | An edge is present exactly when some plugin declares it as a `before` hint, as an `after` hint, or as the implicit core edge. |
| DependencyGraph.NodeSet | src/bootstrap.ts:46-53 | With core present, the nodes are the plugin names plus every name a hint mentions. |
| DependencyGraph.LabelMap | src/bootstrap.ts:46 | The labelled nodes are the plugin names, and each label is a plugin of the list carrying that name. |
| DependencyGraph.LabelIsLastNamed | src/bootstrap.ts:46 | The last plugin with a given name labels the node: a later `setNode` overwrites. |
| DependencyGraph.OrderedPlugins | src/bootstrap.ts:56 | Mapping a schedule to labels succeeds exactly when every scheduled node is labelled. It then gives each node's label in schedule order. Otherwise it names a scheduled node without a label. |
| DependencyGraph.CoreIsSource | src/bootstrap.ts:48-53 | When no plugin lists core in `before` and core has no `after`, core has no incoming edge. |
| DependencyGraph.CoreScheduledFirst | src/bootstrap.ts:48-63 | Under the same conditions, and with a single source, every schedule starts with core. |
| PreludeFold.MergeStep | src/bootstrap.ts:69 | `_.merge(curr, prev)`: the service keys are the union of both sides; on a shared key the accumulated definition wins; config and schemas come from the accumulator. |
| PreludeFold.FoldKeys | src/bootstrap.ts:67-69 | The merged service keys are the initial keys plus every scheduled plugin's keys. |
| PreludeFold.FoldKeepsAccumulated | src/bootstrap.ts:67-69 | A service already defined before the fold keeps that definition. |
| PreludeFold.FoldEarliestWins | src/bootstrap.ts:67-69 | The earliest-scheduled plugin that defines a service supplies its merged definition. |
| PreludeFold.FoldFromInitial | src/bootstrap.ts:65-69 | Folding from the initial prelude keeps the imported config and the empty schema list. The result defines exactly the services some scheduled plugin defines, each taken from the earliest scheduled plugin defining it. |
| PreludeFold.FoldLeavesSchemas | src/bootstrap.ts:65-69 | The fold never changes the config or the schema list, because of the `schema`/`schemas` mismatch. |
| Services.ImplementedAfterFold | src/bootstrap.ts:71-73 | A merged service is in `serviceImpls` exactly when the earliest scheduled plugin defining it gives it an implementation. |
| Services.Unimplemented | src/bootstrap.ts:77 | A service is reported missing exactly when it is required and has no implementation. |
| Services.Declaring | src/bootstrap.ts:76 | The line 76 filter keeps exactly the plugins of the list that declare `dependsOn.services`. |
| Services.DeclaringPositions | src/bootstrap.ts:76 | The filter keeps list order: each declaring plugin comes right after the declaring plugins listed before it. |
| Services.KeepTruthyKeepsAll | src/bootstrap.ts:78 | `KeepTruthy`, the line 78 filter, keeps every scan. |
| Services.ScansAlign | src/bootstrap.ts:75-77 | `Scans`: there is one scan per declaring plugin, in list order, with that plugin's name and its unimplemented services. |
| Services.MissingServicesEntries | src/bootstrap.ts:75-78 | `MissingServices` reports exactly those scans: one entry per declaring plugin, in list order, listing that plugin's required services without an implementation. |
| Services.MissingServicesNonEmptyIff | src/bootstrap.ts:75-84 | Something is reported exactly when some plugin declares `dependsOn.services`. |
| Services.DeclaringNonEmptyIff | src/bootstrap.ts:76 | The line 76 filter keeps something exactly when some plugin declares `dependsOn.services`. |
| Services.Build | src/bootstrap.ts:95-97 | A builder exists exactly when the implementation has a factory or a singleton. The factory is preferred, and the builder gets the definition's own config. |
| Services.Instantiate | src/bootstrap.ts:90-99 | The loop succeeds exactly when every implemented service has a builder. Its map then has exactly the implemented names, each bound to its factory, or else its singleton, called with that service's config. On failure it names an implemented service without a builder. |
| Bootstrap.RunInitHooks | src/bootstrap.ts:112 | One call per plugin that has an `init`, in schedule order, each given the finished result. |
| Bootstrap.InitHooksPositions | src/bootstrap.ts:112 | `InitHooks`: each plugin's hook is called exactly once, at the position given by the hooks before it. |
| Bootstrap.SortedNames | src/bootstrap.ts:37 | Sorting keeps the set of plugin names. |
| Bootstrap.SortedRequirements | src/bootstrap.ts:37 | Sorting keeps whether some plugin declares `dependsOn.services`. |
| Bootstrap.StartServices | src/bootstrap.ts:65-114 | It fails on missing services exactly when some plugin declares `dependsOn.services`, and the entries are then the check's entries. Otherwise it fails naming an unbuildable service, or starts. On start the result holds the config, an empty schema list, the merged definitions, and exactly the built services, and the hooks run in order. |
| Bootstrap.RunStages | src/bootstrap.ts:56-114 | After the graph checks, an unlabelled scheduled node fails first. Then come the outcomes of StartServices along the schedule. A list that passes every check, requires nothing and is buildable on every schedule starts. |
| Bootstrap.Bootstrap | src/bootstrap.ts:24-115 | NoPlugins exactly for the empty list, and NoCore exactly for a list without core. NoRootOrCycle exactly when there is no source or there is a cycle. MultipleRoots with the source count exactly when there are several sources. Every later outcome occurs only on an accepted graph, along a schedule of it, with the guarantees of RunStages. |
| OrderScenarios.AfterDigraphFacts | src/__tests__/bootstrap.test.ts:48-78 | With plugin2 after plugin1, core is the only source and core, plugin1, plugin2 is the only schedule. |
| OrderScenarios.AfterOrder | src/__tests__/bootstrap.test.ts:48-78 | bootstrap() starts, and the hooks fire as core, plugin1, plugin2. |
| OrderScenarios.BeforeDigraphFacts | src/__tests__/bootstrap.test.ts:80-110 | With plugin2 before plugin1, core, plugin2, plugin1 is the only schedule. |
| OrderScenarios.BeforeOrder | src/__tests__/bootstrap.test.ts:80-110 | bootstrap() starts, and the hooks fire as core, plugin2, plugin1. |
| OrderScenarios.PrioritySort | src/__tests__/bootstrap.test.ts:112-139 | Priorities 12, 11, 10 are sorted to core, plugin1, plugin2. |
| OrderScenarios.PriorityDigraphFacts | src/__tests__/bootstrap.test.ts:112-139 | Without hints, the schedules are exactly core, plugin1, plugin2 and core, plugin2, plugin1. |
| OrderScenarios.PriorityOrder | src/__tests__/bootstrap.test.ts:112-139 | bootstrap() starts. Core's hook fires first, and plugin1's and plugin2's follow in one of the two orders; no other order can occur. |
| ServiceScenarios.ConfigMerged | src/__tests__/bootstrap.test.ts:141-173 | Both definitions are merged, and only testService is instantiated: its singleton is called with its own config `['value1']`. |
| ServiceScenarios.NeedyMissing | src/__tests__/bootstrap.test.ts:26-46 | Nothing defines decoder, so the check reports decoder against core. |
| ServiceScenarios.NeedyFails | src/__tests__/bootstrap.test.ts:26-46 | bootstrap() stops with the missing-services error: decoder, required by core. |
| ServiceScenarios.SelfMissing | src/bootstrap.ts:75-78 | A plugin whose required service is implemented still gets an entry, with nothing missing. |
| ServiceScenarios.SatisfiedStillFails | src/bootstrap.ts:75-84 | bootstrap() on such a list throws the missing-services error with that empty entry. |
| ServiceScenarios.BrokenFails | src/bootstrap.ts:94-97 | An implementation with neither factory nor singleton makes bootstrap() fail, naming that service. |
| CoreHintScenarios.CoreAsBeforeTarget | src/bootstrap.ts:48-63 | With plugin1 `before: ['core']`, plugin1 gets no implicit edge. The graph passes the checks, bootstrap() starts, and plugin1's hook fires before core's. |
| CoreHintScenarios.CoreAsAfterSource | src/bootstrap.ts:48-61 | With core `after: ['plugin1']`, the mirror-image hint, line 49 also adds core -> plugin1. The 2-cycle makes bootstrap() fail with NoRootOrCycle. |
| ErrorScenarios.EmptyFails | src/bootstrap.ts:27-31 | The empty list fails with NoPlugins. |
| ErrorScenarios.NoCoreFails | src/__tests__/bootstrap.test.ts:12-24 | A list holding plugin1 alone fails with NoCore. |
| ErrorScenarios.CycleFails | src/bootstrap.ts:52-60 | Two plugins each before the other fail with NoRootOrCycle. |
| ErrorScenarios.LoopFails | src/bootstrap.ts:52-60 | A plugin before itself fails with NoRootOrCycle. |
| ErrorScenarios.HintFails | src/bootstrap.ts:52-68 | A `before` hint naming no plugin passes the graph checks, then fails on that unlabelled node. |
| ErrorScenarios.RootsFail | src/bootstrap.ts:53-62 | An `after` hint naming no plugin makes a second source and fails with MultipleRoots(2). |

## Left out

- The plugin factory call at line 25 is not modelled. The model takes the descriptors it would return as input.
- graphlib's `alg.topsort` traversal is not modelled, and so neither is the order it picks among ready nodes. `Graphs.TopSort` may return any schedule, and the model states what holds for all of them.
- The priority test (src/__tests__/bootstrap.test.ts:112-139) expects core, plugin1, plugin2. In the model core fires first, and plugin1 and plugin2 follow in one of the two orders. The model does not decide which, because that is graphlib's choice among ready nodes (`OrderScenarios.PriorityOrder`).
- Plugins.SortByPriority: a NaN priority is not modelled, because lodash's comparison treats NaN inconsistently. A priority is a number (a real) or absent, and absent sorts after every number.
- Line 112 calls `alg.topsort` a second time. The model assumes it returns the same order as the call at line 67, which graphlib does for an unchanged graph.
- Full lodash `_.merge` and `_.defaultsDeep` semantics are not modelled: deep merging of same-named definitions, index-wise array merging, cloning, `undefined` handling. The model keeps the key union, the rule that the accumulated definition wins, and the `after`/`before` defaults.
- PreludeFold.FoldEarliestWins: the merge is modelled at key level only. In the code a later definer's fields are merged into the earliest definer's definition, which gains any field it lacks. So when the earliest definer has no `implementation` and a later one has, the code instantiates the service and the model does not. `PreludeFold.FoldFromInitial` and `Services.ImplementedAfterFold` share this limit.
- Resolvers are not modelled. They are only handed to `mergeSchemas`.
- `mergeSchemas` (lines 102-106) is a foreign library call. `BootstrapResult.schemas` holds the list it would receive.
- The `config` import (line 5) is a parameter of `Bootstrap.Bootstrap`.
- `console.log` (line 88) is I/O with no effect on the result.
- Error message text is left out: each error is a constructor of `BootError`.
- Builders and `init` hooks are opaque values. A builder call is recorded as `Called(builder, config)` and a hook call as `HookCall(hook, result)`. Exceptions thrown inside them, and their side effects, are not modelled.
- The order of `Object.entries` at line 91 is not modelled: the factories form a map.
- `Services.Instantiate`: on a failure it names some implemented service that has no builder, not necessarily the first in `Object.entries` order.
- src/context.ts is not part of this model: it only wraps a Web3 client.
- src/index.ts is not part of this model: it handles process signals, server start and logging.
- src/plugin.ts is not part of this model: it holds type declarations only.
