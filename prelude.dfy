/**
  The prelude fold of src/bootstrap.ts:65-69: the scheduled plugins'
  contributions reduced into one accumulator with `_.merge(curr, prev)`.
 */
module PreludeFold {
  import opened Plugins

  /** EthqlPrelude (src/bootstrap.ts:10-15), without `resolvers`. */
  datatype Prelude = Prelude(config: Config, schemas: seq<string>, serviceDefinitions: map<Name, ServiceDefinition>)

  /** `{ config, schemas: [], resolvers: [], serviceDefinitions: {} }` */
  function Initial(config: Config): Prelude {
    Prelude(config, [], map[])
  }

  /**
    One step of the reduce: `_.merge(curr, prev)`, where curr is the plugin's
    projection `{ schema, resolvers, serviceDefinitions }`. prev is the merge
    source, so on a colliding service name the accumulated definition wins.
    The projection names its key `schema`, not `schemas`, so the prelude's
    schema list is never extended.
   */
  function MergeStep(prev: Prelude, curr: Plugin): (r: Prelude)
    ensures r.serviceDefinitions.Keys == prev.serviceDefinitions.Keys + curr.serviceDefinitions.Keys
    ensures forall k | k in prev.serviceDefinitions :: r.serviceDefinitions[k] == prev.serviceDefinitions[k]
    ensures forall k | k in curr.serviceDefinitions && k !in prev.serviceDefinitions ::
              r.serviceDefinitions[k] == curr.serviceDefinitions[k]
    ensures r.config == prev.config && r.schemas == prev.schemas
  {
    prev.(serviceDefinitions := curr.serviceDefinitions + prev.serviceDefinitions)
  }

  /** `plugins.reduce((prev, curr) => _.merge(curr, prev), acc)` */
  function Fold(acc: Prelude, ps: seq<Plugin>): Prelude
    decreases ps
  {
    if ps == [] then acc else Fold(MergeStep(acc, ps[0]), ps[1..])
  }

  /** Every service name some plugin of ps defines. */
  function DefinedServices(ps: seq<Plugin>): set<Name> {
    set i, k | 0 <= i < |ps| && k in ps[i].serviceDefinitions :: k
  }

  lemma DefinedServicesCons(ps: seq<Plugin>)
    requires ps != []
    ensures DefinedServices(ps) == ps[0].serviceDefinitions.Keys + DefinedServices(ps[1..])
  {
    forall k | k in DefinedServices(ps) ensures k in ps[0].serviceDefinitions.Keys + DefinedServices(ps[1..]) {
      var i :| 0 <= i < |ps| && k in ps[i].serviceDefinitions;
      if i > 0 {
        assert ps[1..][i - 1] == ps[i];
      }
    }
    forall k | k in DefinedServices(ps[1..]) ensures k in DefinedServices(ps) {
      var i :| 0 <= i < |ps[1..]| && k in ps[1..][i].serviceDefinitions;
      assert ps[i + 1] == ps[1..][i];
    }
  }

  /** The merged key set is the accumulator's keys plus every plugin's keys. */
  lemma {:induction false} FoldKeys(acc: Prelude, ps: seq<Plugin>)
    ensures Fold(acc, ps).serviceDefinitions.Keys == acc.serviceDefinitions.Keys + DefinedServices(ps)
    decreases ps
  {
    if ps != [] {
      FoldKeys(MergeStep(acc, ps[0]), ps[1..]);
      DefinedServicesCons(ps);
    }
  }

  /** A definition already accumulated is never overridden by a later plugin. */
  lemma {:induction false} FoldKeepsAccumulated(acc: Prelude, ps: seq<Plugin>, k: Name)
    requires k in acc.serviceDefinitions
    ensures k in Fold(acc, ps).serviceDefinitions
    ensures Fold(acc, ps).serviceDefinitions[k] == acc.serviceDefinitions[k]
    decreases ps
  {
    if ps != [] {
      FoldKeepsAccumulated(MergeStep(acc, ps[0]), ps[1..], k);
    }
  }

  /**
    On a colliding service name the earliest-scheduled plugin's definition
    is the one that survives the fold.
   */
  lemma {:induction false} FoldEarliestWins(acc: Prelude, ps: seq<Plugin>, i: nat, k: Name)
    requires i < |ps| && k in ps[i].serviceDefinitions && k !in acc.serviceDefinitions
    requires forall j | 0 <= j < i :: k !in ps[j].serviceDefinitions
    ensures k in Fold(acc, ps).serviceDefinitions
    ensures Fold(acc, ps).serviceDefinitions[k] == ps[i].serviceDefinitions[k]
    decreases ps
  {
    if i == 0 {
      FoldKeepsAccumulated(MergeStep(acc, ps[0]), ps[1..], k);
    } else {
      FoldEarliestWins(MergeStep(acc, ps[0]), ps[1..], i - 1, k);
    }
  }

  /**
    The fold never touches `config` or `schemas`: the schema list handed on
    is the initial one, whatever schema fragments the plugins carry.
   */
  lemma {:induction false} FoldLeavesSchemas(acc: Prelude, ps: seq<Plugin>)
    ensures Fold(acc, ps).schemas == acc.schemas
    ensures Fold(acc, ps).config == acc.config
    decreases ps
  {
    if ps != [] {
      FoldLeavesSchemas(MergeStep(acc, ps[0]), ps[1..]);
    }
  }

  /**
    The prelude bootstrap() hands on: the imported config, an empty schema
    list, and one definition per service some plugin defines, taken from the
    earliest plugin that defines it.
   */
  lemma FoldFromInitial(config: Config, ps: seq<Plugin>)
    ensures Fold(Initial(config), ps).config == config
    ensures Fold(Initial(config), ps).schemas == []
    ensures Fold(Initial(config), ps).serviceDefinitions.Keys == DefinedServices(ps)
    ensures forall i, k | 0 <= i < |ps| && k in ps[i].serviceDefinitions
                          && (forall j | 0 <= j < i :: k !in ps[j].serviceDefinitions) ::
              Fold(Initial(config), ps).serviceDefinitions[k] == ps[i].serviceDefinitions[k]
  {
    FoldLeavesSchemas(Initial(config), ps);
    FoldKeys(Initial(config), ps);
    forall i, k | 0 <= i < |ps| && k in ps[i].serviceDefinitions
                  && (forall j | 0 <= j < i :: k !in ps[j].serviceDefinitions)
      ensures Fold(Initial(config), ps).serviceDefinitions[k] == ps[i].serviceDefinitions[k]
    {
      FoldEarliestWins(Initial(config), ps, i, k);
    }
  }
}
