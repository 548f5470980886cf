/**
  bootstrap() of src/bootstrap.ts:24-115: validation, graph construction,
  source and cycle checks, schedule, prelude fold, missing-service check,
  service instantiation and init dispatch.
 */
module Bootstrap {
  import opened Plugins
  import opened Graphs
  import opened DependencyGraph
  import opened PreludeFold
  import opened Services

  /**
    EthqlBootstrapResult (src/bootstrap.ts:17-22). `schemas` is the list that
    would be handed to mergeSchemas, which is not part of this model.
   */
  datatype BootstrapResult = BootstrapResult(
    config: Config,
    schemas: seq<string>,
    serviceDefinitions: map<Name, ServiceDefinition>,
    serviceFactories: map<Name, Instance>)

  /** One `init(result)` call. */
  datatype HookCall = HookCall(hook: Hook, result: BootstrapResult)

  /** The errors bootstrap() throws, in the order of its checks. */
  datatype BootError =
    | NoPlugins                                  // line 27-31
    | NoCore                                     // line 33-35
    | NoRootOrCycle                              // line 59-60
    | MultipleRoots(count: nat)                  // line 61-62
    | UnlabelledNode(node: Name)                 // line 68: destructuring an undefined label
    | ServicesMissing(entries: seq<MissingEntry>) // line 80-84
    | MissingBuilder(service: Name)              // line 97: calling an undefined singleton

  datatype Outcome = Started(result: BootstrapResult, initCalls: seq<HookCall>) | Failed(error: BootError)

  /** The init hooks of ps, in order, skipping plugins without one. */
  function InitHooks(ps: seq<Plugin>): seq<Hook> {
    if ps == [] then []
    else (if ps[0].init.Some? then [ps[0].init.value] else []) + InitHooks(ps[1..])
  }

  /** How many of the first i plugins have an init hook. */
  function HooksBefore(ps: seq<Plugin>, i: nat): nat
    requires i <= |ps|
  {
    if i == 0 then 0 else HooksBefore(ps, i - 1) + (if ps[i - 1].init.Some? then 1 else 0)
  }

  /**
    Each plugin's hook is invoked once, at the position given by the hooks
    before it: so in schedule order, and nothing else is invoked.
   */
  lemma {:induction false} InitHooksPositions(ps: seq<Plugin>)
    ensures |InitHooks(ps)| == HooksBefore(ps, |ps|)
    ensures forall i | 0 <= i < |ps| && ps[i].init.Some? ::
              HooksBefore(ps, i) < |InitHooks(ps)| && InitHooks(ps)[HooksBefore(ps, i)] == ps[i].init.value
  {
    if ps != [] {
      var init := ps[..|ps| - 1];
      var last := ps[|ps| - 1];
      InitHooksSnoc(init, last);
      assert ps == init + [last];
      InitHooksPositions(init);
      HooksBeforePrefix(ps, init);
    }
  }

  lemma {:induction false} InitHooksSnoc(ps: seq<Plugin>, p: Plugin)
    ensures InitHooks(ps + [p]) == InitHooks(ps) + (if p.init.Some? then [p.init.value] else [])
  {
    var tail := if p.init.Some? then [p.init.value] else [];
    if ps == [] {
      assert [p][1..] == [];
      assert ps + [p] == [p];
    } else {
      var q := ps + [p];
      var head := if ps[0].init.Some? then [ps[0].init.value] else [];
      assert q[0] == ps[0];
      assert q[1..] == ps[1..] + [p];
      InitHooksSnoc(ps[1..], p);
      calc {
        InitHooks(q);
        head + InitHooks(ps[1..] + [p]);
        head + (InitHooks(ps[1..]) + tail);
        (head + InitHooks(ps[1..])) + tail;
        InitHooks(ps) + tail;
      }
    }
  }

  lemma {:induction false} HooksBeforePrefix(ps: seq<Plugin>, init: seq<Plugin>)
    requires |init| <= |ps| && init == ps[..|init|]
    ensures forall i | 0 <= i <= |init| :: HooksBefore(init, i) == HooksBefore(ps, i)
  {
    forall i | 0 <= i <= |init| ensures HooksBefore(init, i) == HooksBefore(ps, i) {
      HooksBeforeAgree(ps, init, i);
    }
  }

  lemma {:induction false} HooksBeforeAgree(ps: seq<Plugin>, init: seq<Plugin>, i: nat)
    requires |init| <= |ps| && init == ps[..|init|] && i <= |init|
    ensures HooksBefore(init, i) == HooksBefore(ps, i)
  {
    if i > 0 {
      HooksBeforeAgree(ps, init, i - 1);
    }
  }

  /**
    `orderedPlugins().forEach(({ init }) => init && init(result))`
    (src/bootstrap.ts:112): each hook in schedule order, each given the
    finished result.
   */
  method RunInitHooks(ordered: seq<Plugin>, result: BootstrapResult) returns (calls: seq<HookCall>)
    ensures |calls| == |InitHooks(ordered)|
    ensures forall i | 0 <= i < |calls| :: calls[i] == HookCall(InitHooks(ordered)[i], result)
  {
    calls := [];
    for i := 0 to |ordered|
      invariant |calls| == |InitHooks(ordered[..i])|
      invariant forall j | 0 <= j < |calls| :: calls[j] == HookCall(InitHooks(ordered[..i])[j], result)
    {
      assert ordered[..i + 1] == ordered[..i] + [ordered[i]];
      InitHooksSnoc(ordered[..i], ordered[i]);
      var init := ordered[i].init;
      if init.Some? {
        calls := calls + [HookCall(init.value, result)];
      }
    }
    assert ordered[..|ordered|] == ordered;
  }

  /** The graph bootstrap() builds for a plugin list. */
  function PluginGraphOf(plugins: seq<Plugin>): Digraph<Name> {
    GraphOf(SortByPriority(plugins))
  }

  /** The checks of src/bootstrap.ts:27-35 pass. */
  predicate ValidList(plugins: seq<Plugin>) {
    plugins != [] && HasCore(plugins)
  }

  /** The checks of src/bootstrap.ts:58-63 pass: acyclic, exactly one source. */
  ghost predicate Accepted(g: Digraph<Name>) {
    !HasCycle(g) && |Sources(g)| == 1
  }

  /**
    The scheduled plugins bootstrap() folds and initialises, for a given
    schedule of its graph.
   */
  function Ordered(plugins: seq<Plugin>, schedule: seq<Name>): Result<seq<Plugin>, Name> {
    OrderedPlugins(schedule, LabelMap(SortByPriority(plugins)))
  }

  /**
    Every check before the prelude fold passes: a non-empty list with core,
    an acyclic graph with one source, and a label on every node.
   */
  ghost predicate GraphChecksPass(plugins: seq<Plugin>) {
    && ValidList(plugins)
    && Accepted(PluginGraphOf(plugins))
    && forall n | n in PluginGraphOf(plugins).nodes :: n in Names(plugins)
  }

  /** No plugin declares `dependsOn.services`. */
  predicate RequiresNothing(plugins: seq<Plugin>) {
    forall i | 0 <= i < |plugins| :: plugins[i].requiredServices.None?
  }

  /** Whichever schedule graphlib picks, every implemented service has a builder. */
  ghost predicate BuildableOnEverySchedule(plugins: seq<Plugin>, config: Config) {
    forall s | IsSchedule(s, PluginGraphOf(plugins)) ::
      && Ordered(plugins, s).Ok?
      && Buildable(Fold(Initial(config), Ordered(plugins, s).value).serviceDefinitions)
  }

  /** The outcomes that RunStages can produce. */
  predicate LateOutcome(r: Outcome) {
    r.Started? || r.error.UnlabelledNode? || r.error.ServicesMissing? || r.error.MissingBuilder?
  }

  /**
    bootstrap() after the graph checks (src/bootstrap.ts:56, 65-114), along
    the schedule graphlib produced: the labels of the scheduled nodes, the
    prelude fold, the missing-service check, the instantiation of services
    and the init hooks.
   */
  method RunStages(plugins: seq<Plugin>, config: Config, schedule: seq<Name>, labels: map<Name, Plugin>)
    returns (r: Outcome)
    requires ValidList(plugins) && Accepted(PluginGraphOf(plugins)) && IsSchedule(schedule, PluginGraphOf(plugins))
    requires labels == LabelMap(SortByPriority(plugins))
    ensures LateOutcome(r)
    ensures (exists n | n in PluginGraphOf(plugins).nodes :: n !in Names(plugins)) ==> r.Failed? && r.error.UnlabelledNode?
    ensures r.Failed? && r.error.UnlabelledNode? ==>
              r.error.node in PluginGraphOf(plugins).nodes && r.error.node !in Names(plugins)
    ensures (r.Started? || r.error.ServicesMissing? || r.error.MissingBuilder?) ==> Ordered(plugins, schedule).Ok?
    ensures r.Failed? && r.error.ServicesMissing? ==>
              r.error.entries == MissingServices(SortByPriority(plugins),
                                   Fold(Initial(config), Ordered(plugins, schedule).value).serviceDefinitions)
              && r.error.entries != []
    ensures (exists i | 0 <= i < |plugins| :: plugins[i].requiredServices.Some?) ==> r.Failed?
    ensures (r.Started? || r.error.MissingBuilder?) ==>
              MissingServices(SortByPriority(plugins),
                Fold(Initial(config), Ordered(plugins, schedule).value).serviceDefinitions) == []
    ensures r.Failed? && r.error.MissingBuilder? ==>
              var defs := Fold(Initial(config), Ordered(plugins, schedule).value).serviceDefinitions;
              && !Buildable(defs)
              && r.error.service in defs && defs[r.error.service].implementation.Some?
              && Build(defs[r.error.service], defs[r.error.service].implementation.value).None?
    ensures GraphChecksPass(plugins) && !RequiresNothing(plugins) ==> r.Failed? && r.error.ServicesMissing?
    ensures GraphChecksPass(plugins) && RequiresNothing(plugins) ==> r.Started? || r.error.MissingBuilder?
    ensures GraphChecksPass(plugins) && RequiresNothing(plugins) && BuildableOnEverySchedule(plugins, config)
            ==> r.Started?
    ensures r.Started? ==>
              var ordered := Ordered(plugins, schedule).value;
              var defs := Fold(Initial(config), ordered).serviceDefinitions;
              && r.result.config == config
              && r.result.schemas == []
              && r.result.serviceDefinitions == defs
              && Buildable(defs)
              && r.result.serviceFactories.Keys == ServiceImpls(defs)
              && (forall k | k in r.result.serviceFactories ::
                    Build(defs[k], defs[k].implementation.value) == Some(r.result.serviceFactories[k]))
              && |r.initCalls| == |InitHooks(ordered)|
              && (forall i | 0 <= i < |r.initCalls| :: r.initCalls[i] == HookCall(InitHooks(ordered)[i], r.result))
  {
    var ordered := OrderedPlugins(schedule, labels);
    SortedNames(plugins);
    if ordered.Err? {
      assert ordered.error in PluginGraphOf(plugins).nodes && ordered.error !in Names(plugins);
      return Failed(UnlabelledNode(ordered.error));
    }
    r := StartServices(plugins, config, ordered.value);
  }

  /**
    src/bootstrap.ts:65-114 on the scheduled plugins: the prelude fold, the
    missing-service check over the sorted list, the instantiation of the
    services and the init hooks.
   */
  method StartServices(plugins: seq<Plugin>, config: Config, ordered: seq<Plugin>) returns (r: Outcome)
    ensures r.Started? || r.error.ServicesMissing? || r.error.MissingBuilder?
    ensures r.Failed? && r.error.ServicesMissing? <==> !RequiresNothing(plugins)
    ensures r.Failed? && r.error.ServicesMissing? ==>
              r.error.entries == MissingServices(SortByPriority(plugins), Fold(Initial(config), ordered).serviceDefinitions)
              && r.error.entries != []
    ensures (r.Started? || r.error.MissingBuilder?) ==>
              MissingServices(SortByPriority(plugins), Fold(Initial(config), ordered).serviceDefinitions) == []
    ensures r.Failed? && r.error.MissingBuilder? ==>
              var defs := Fold(Initial(config), ordered).serviceDefinitions;
              && !Buildable(defs)
              && r.error.service in defs && defs[r.error.service].implementation.Some?
              && Build(defs[r.error.service], defs[r.error.service].implementation.value).None?
    ensures r.Started? ==>
              var defs := Fold(Initial(config), ordered).serviceDefinitions;
              && r.result.config == config
              && r.result.schemas == []
              && r.result.serviceDefinitions == defs
              && Buildable(defs)
              && r.result.serviceFactories.Keys == ServiceImpls(defs)
              && (forall k | k in r.result.serviceFactories ::
                    Build(defs[k], defs[k].implementation.value) == Some(r.result.serviceFactories[k]))
              && |r.initCalls| == |InitHooks(ordered)|
              && (forall i | 0 <= i < |r.initCalls| :: r.initCalls[i] == HookCall(InitHooks(ordered)[i], r.result))
  {
    var sorted := SortByPriority(plugins);
    var prelude := Fold(Initial(config), ordered);
    FoldLeavesSchemas(Initial(config), ordered);
    var missing := MissingServices(sorted, prelude.serviceDefinitions);
    MissingServicesNonEmptyIff(sorted, prelude.serviceDefinitions);
    SortedRequirements(plugins);
    if |missing| > 0 {
      return Failed(ServicesMissing(missing));
    }
    var factories := Instantiate(prelude.serviceDefinitions);
    if factories.Err? {
      return Failed(MissingBuilder(factories.error));
    }
    var result := BootstrapResult(config, prelude.schemas, prelude.serviceDefinitions, factories.value);
    var calls := RunInitHooks(ordered, result);
    r := Started(result, calls);
  }

  /**
    bootstrap(). The schedule it uses is returned as a ghost value: the model
    lets the schedule be any topological order of the graph, and every
    contract below holds for the one it picked.
   */
  method Bootstrap(plugins: seq<Plugin>, config: Config) returns (r: Outcome, ghost schedule: seq<Name>)
    // src/bootstrap.ts:27-35
    ensures r == Failed(NoPlugins) <==> plugins == []
    ensures r == Failed(NoCore) <==> plugins != [] && !HasCore(plugins)
    // src/bootstrap.ts:58-63
    ensures ValidList(plugins) && (Sources(PluginGraphOf(plugins)) == {} || HasCycle(PluginGraphOf(plugins)))
            ==> r == Failed(NoRootOrCycle)
    ensures ValidList(plugins) && Sources(PluginGraphOf(plugins)) != {} && !HasCycle(PluginGraphOf(plugins))
            && |Sources(PluginGraphOf(plugins))| > 1
            ==> r == Failed(MultipleRoots(|Sources(PluginGraphOf(plugins))|))
    ensures r == Failed(NoRootOrCycle) ==>
              ValidList(plugins) && (Sources(PluginGraphOf(plugins)) == {} || HasCycle(PluginGraphOf(plugins)))
    ensures r.Failed? && r.error.MultipleRoots? ==>
              && ValidList(plugins) && !HasCycle(PluginGraphOf(plugins))
              && r.error.count == |Sources(PluginGraphOf(plugins))| > 1
    // every later stage runs only on an accepted graph, along a schedule of it
    ensures LateOutcome(r)
            ==> ValidList(plugins) && Accepted(PluginGraphOf(plugins)) && IsSchedule(schedule, PluginGraphOf(plugins))
    // src/bootstrap.ts:56, 68
    ensures r.Failed? && r.error.UnlabelledNode? ==>
              r.error.node in PluginGraphOf(plugins).nodes && r.error.node !in Names(plugins)
    ensures (r.Started? || r.error.ServicesMissing? || r.error.MissingBuilder?) ==> Ordered(plugins, schedule).Ok?
    // src/bootstrap.ts:71-84
    ensures r.Failed? && r.error.ServicesMissing? ==>
              r.error.entries == MissingServices(SortByPriority(plugins),
                                   Fold(Initial(config), Ordered(plugins, schedule).value).serviceDefinitions)
              && r.error.entries != []
    ensures (exists i | 0 <= i < |plugins| :: plugins[i].requiredServices.Some?) ==> r.Failed?
    ensures (r.Started? || r.error.MissingBuilder?) ==>
              MissingServices(SortByPriority(plugins),
                Fold(Initial(config), Ordered(plugins, schedule).value).serviceDefinitions) == []
    // src/bootstrap.ts:90-99
    ensures r.Failed? && r.error.MissingBuilder? ==>
              var defs := Fold(Initial(config), Ordered(plugins, schedule).value).serviceDefinitions;
              && !Buildable(defs)
              && r.error.service in defs && defs[r.error.service].implementation.Some?
              && Build(defs[r.error.service], defs[r.error.service].implementation.value).None?
    // which outcome a list that passes the graph checks reaches
    ensures ValidList(plugins) && Accepted(PluginGraphOf(plugins)) ==> LateOutcome(r)
    ensures ValidList(plugins) && Accepted(PluginGraphOf(plugins))
            && (exists n | n in PluginGraphOf(plugins).nodes :: n !in Names(plugins))
            ==> r.Failed? && r.error.UnlabelledNode?
    ensures GraphChecksPass(plugins) && !RequiresNothing(plugins) ==> r.Failed? && r.error.ServicesMissing?
    ensures GraphChecksPass(plugins) && RequiresNothing(plugins) ==> r.Started? || r.error.MissingBuilder?
    ensures GraphChecksPass(plugins) && RequiresNothing(plugins) && BuildableOnEverySchedule(plugins, config)
            ==> r.Started?
    // the assembled result and the init calls
    ensures r.Started? ==>
              var ordered := Ordered(plugins, schedule).value;
              var defs := Fold(Initial(config), ordered).serviceDefinitions;
              && r.result.config == config
              && r.result.schemas == []
              && r.result.serviceDefinitions == defs
              && Buildable(defs)
              && r.result.serviceFactories.Keys == ServiceImpls(defs)
              && (forall k | k in r.result.serviceFactories ::
                    Build(defs[k], defs[k].implementation.value) == Some(r.result.serviceFactories[k]))
              && |r.initCalls| == |InitHooks(ordered)|
              && (forall i | 0 <= i < |r.initCalls| :: r.initCalls[i] == HookCall(InitHooks(ordered)[i], r.result))
  {
    schedule := [];
    if |plugins| == 0 {
      return Failed(NoPlugins), schedule;
    }
    if FindCore(plugins).None? {
      return Failed(NoCore), schedule;
    }
    var sorted := SortByPriority(plugins);
    var graph := BuildGraph(sorted);
    var g := graph.Value();
    var sources := Sources(g);
    if |sources| == 0 {
      return Failed(NoRootOrCycle), schedule;
    }
    var acyclic := IsAcyclic(g);
    if !acyclic {
      return Failed(NoRootOrCycle), schedule;
    }
    if |sources| > 1 {
      return Failed(MultipleRoots(|sources|)), schedule;
    }
    var order := TopSort(g);
    assert order.Some?;
    schedule := order.value;
    r := RunStages(plugins, config, order.value, graph.labels);
  }

  lemma SortedNames(plugins: seq<Plugin>)
    ensures Names(SortByPriority(plugins)) == Names(plugins)
  {
    var sorted := SortByPriority(plugins);
    forall p | p in sorted ensures p in plugins { SortKeepsMembers(plugins, p); }
    forall p | p in plugins ensures p in sorted { SortKeepsMembers(plugins, p); }
  }

  lemma SortedRequirements(plugins: seq<Plugin>)
    ensures (exists i | 0 <= i < |plugins| :: plugins[i].requiredServices.Some?)
        <==> (exists i | 0 <= i < |SortByPriority(plugins)| :: SortByPriority(plugins)[i].requiredServices.Some?)
  {
    var sorted := SortByPriority(plugins);
    if exists i | 0 <= i < |plugins| :: plugins[i].requiredServices.Some? {
      var i :| 0 <= i < |plugins| && plugins[i].requiredServices.Some?;
      SortKeepsMembers(plugins, plugins[i]);
      var j :| 0 <= j < |sorted| && sorted[j] == plugins[i];
    }
    if exists i | 0 <= i < |sorted| :: sorted[i].requiredServices.Some? {
      var i :| 0 <= i < |sorted| && sorted[i].requiredServices.Some?;
      SortKeepsMembers(plugins, sorted[i]);
      var j :| 0 <= j < |plugins| && plugins[j] == sorted[i];
    }
  }
}
