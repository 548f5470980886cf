/**
  The missing-service check (src/bootstrap.ts:71-84) and the instantiation
  of services (src/bootstrap.ts:90-99).
 */
module Services {
  import opened Plugins
  import opened PreludeFold

  /** `serviceImpls`: the merged service names whose definition has an implementation. */
  function ServiceImpls(defs: map<Name, ServiceDefinition>): set<Name> {
    set k | k in defs && defs[k].implementation.Some?
  }

  /**
    A merged service counts as implemented exactly when the earliest
    scheduled plugin that defines it gives it an implementation.
   */
  lemma ImplementedAfterFold(config: Config, ps: seq<Plugin>, i: nat, k: Name)
    requires i < |ps| && k in ps[i].serviceDefinitions
    requires forall j | 0 <= j < i :: k !in ps[j].serviceDefinitions
    ensures k in ServiceImpls(Fold(Initial(config), ps).serviceDefinitions)
            <==> ps[i].serviceDefinitions[k].implementation.Some?
  {
    FoldEarliestWins(Initial(config), ps, i, k);
  }

  /** One scan of src/bootstrap.ts:77: a plugin's name and its unimplemented services. */
  datatype MissingEntry = MissingEntry(name: Name, missing: seq<Name>)

  /** `plugin.dependsOn.services.filter(s => !serviceImpls.includes(s))` */
  function Unimplemented(required: seq<Name>, impls: set<Name>): (r: seq<Name>)
    ensures forall s :: s in r <==> s in required && s !in impls
  {
    if required == [] then []
    else (if required[0] in impls then [] else [required[0]]) + Unimplemented(required[1..], impls)
  }

  /** Lines 75-77: one scan per plugin that declares `dependsOn.services`, in list order. */
  function Scans(ps: seq<Plugin>, impls: set<Name>): seq<MissingEntry> {
    if ps == [] then []
    else
      (match ps[0].requiredServices
       case Some(required) => [MissingEntry(ps[0].name, Unimplemented(required, impls))]
       case None => [])
      + Scans(ps[1..], impls)
  }

  /** JavaScript truthiness of an array: every array, the empty one too, is truthy. */
  predicate ArrayIsTruthy(a: seq<Name>) {
    true
  }

  /** `.filter(scan => scan.missing)` (line 78) */
  function KeepTruthy(scans: seq<MissingEntry>): seq<MissingEntry> {
    if scans == [] then []
    else (if ArrayIsTruthy(scans[0].missing) then [scans[0]] else []) + KeepTruthy(scans[1..])
  }

  /** `missingServices` of src/bootstrap.ts:75-78 */
  function MissingServices(ps: seq<Plugin>, defs: map<Name, ServiceDefinition>): seq<MissingEntry> {
    KeepTruthy(Scans(ps, ServiceImpls(defs)))
  }

  /** The plugins that declare `dependsOn.services`, in list order. */
  function Declaring(ps: seq<Plugin>): (r: seq<Plugin>)
    ensures forall i | 0 <= i < |r| :: r[i].requiredServices.Some? && r[i] in ps
    ensures forall p :: p in r <==> p in ps && p.requiredServices.Some?
  {
    if ps == [] then []
    else
      assert forall p :: p in ps <==> p == ps[0] || p in ps[1..];
      (if ps[0].requiredServices.Some? then [ps[0]] else []) + Declaring(ps[1..])
  }

  /** Selecting the declaring plugins distributes over concatenation. */
  lemma {:induction false} DeclaringAppend(a: seq<Plugin>, b: seq<Plugin>)
    ensures Declaring(a + b) == Declaring(a) + Declaring(b)
  {
    if a == [] {
      assert a + b == b;
    } else {
      var head := if a[0].requiredServices.Some? then [a[0]] else [];
      assert (a + b)[0] == a[0];
      assert (a + b)[1..] == a[1..] + b;
      DeclaringAppend(a[1..], b);
      calc {
        Declaring(a + b);
        head + Declaring(a[1..] + b);
        head + (Declaring(a[1..]) + Declaring(b));
        (head + Declaring(a[1..])) + Declaring(b);
        Declaring(a) + Declaring(b);
      }
    }
  }

  /**
    Each declaring plugin keeps its place: it comes right after the declaring
    plugins listed before it, so the selection preserves list order.
   */
  lemma DeclaringPositions(ps: seq<Plugin>)
    ensures forall i | 0 <= i < |ps| && ps[i].requiredServices.Some? ::
              |Declaring(ps[..i])| < |Declaring(ps)| && Declaring(ps)[|Declaring(ps[..i])|] == ps[i]
  {
    forall i | 0 <= i < |ps| && ps[i].requiredServices.Some?
      ensures |Declaring(ps[..i])| < |Declaring(ps)| && Declaring(ps)[|Declaring(ps[..i])|] == ps[i]
    {
      DeclaringPosition(ps, i);
    }
  }

  lemma DeclaringPosition(ps: seq<Plugin>, i: nat)
    requires i < |ps| && ps[i].requiredServices.Some?
    ensures |Declaring(ps[..i])| < |Declaring(ps)| && Declaring(ps)[|Declaring(ps[..i])|] == ps[i]
  {
    var front, back := ps[..i], ps[i..];
    assert ps == front + back;
    DeclaringAppend(front, back);
    assert back[0] == ps[i];
    assert Declaring(back) == [ps[i]] + Declaring(back[1..]);
    assert Declaring(ps) == Declaring(front) + ([ps[i]] + Declaring(back[1..]));
  }

  /** Line 78 keeps every scan, empty or not. */
  lemma {:induction false} KeepTruthyKeepsAll(scans: seq<MissingEntry>)
    ensures KeepTruthy(scans) == scans
  {
    if scans != [] {
      KeepTruthyKeepsAll(scans[1..]);
    }
  }

  /**
    The check has one entry per declaring plugin, in list order; each lists
    exactly that plugin's required services that lack an implementation.
   */
  lemma {:induction false} MissingServicesEntries(ps: seq<Plugin>, defs: map<Name, ServiceDefinition>)
    ensures |MissingServices(ps, defs)| == |Declaring(ps)|
    ensures forall i | 0 <= i < |Declaring(ps)| ::
              && MissingServices(ps, defs)[i].name == Declaring(ps)[i].name
              && forall s :: s in MissingServices(ps, defs)[i].missing <==>
                   s in Declaring(ps)[i].requiredServices.value && !(s in defs && defs[s].implementation.Some?)
  {
    KeepTruthyKeepsAll(Scans(ps, ServiceImpls(defs)));
    ScansAlign(ps, ServiceImpls(defs));
  }

  lemma {:induction false} ScansAlign(ps: seq<Plugin>, impls: set<Name>)
    ensures |Scans(ps, impls)| == |Declaring(ps)|
    ensures forall i | 0 <= i < |Declaring(ps)| ::
              && Declaring(ps)[i].requiredServices.Some?
              && Scans(ps, impls)[i] == MissingEntry(Declaring(ps)[i].name, Unimplemented(Declaring(ps)[i].requiredServices.value, impls))
  {
    if ps != [] {
      ScansAlign(ps[1..], impls);
      if ps[0].requiredServices.Some? {
        assert Declaring(ps) == [ps[0]] + Declaring(ps[1..]);
        assert Scans(ps, impls) == [MissingEntry(ps[0].name, Unimplemented(ps[0].requiredServices.value, impls))] + Scans(ps[1..], impls);
      } else {
        assert Declaring(ps) == Declaring(ps[1..]);
        assert Scans(ps, impls) == Scans(ps[1..], impls);
      }
    }
  }

  /**
    Because line 78 keeps every scan, the check reports something exactly
    when some plugin declares `dependsOn.services`, whatever is implemented.
   */
  lemma {:induction false} MissingServicesNonEmptyIff(ps: seq<Plugin>, defs: map<Name, ServiceDefinition>)
    ensures MissingServices(ps, defs) != [] <==> exists i | 0 <= i < |ps| :: ps[i].requiredServices.Some?
  {
    MissingServicesEntries(ps, defs);
    DeclaringNonEmptyIff(ps);
  }

  lemma {:induction false} DeclaringNonEmptyIff(ps: seq<Plugin>)
    ensures Declaring(ps) != [] <==> exists i | 0 <= i < |ps| :: ps[i].requiredServices.Some?
  {
    if ps != [] {
      DeclaringNonEmptyIff(ps[1..]);
      if exists i | 0 <= i < |ps[1..]| :: ps[1..][i].requiredServices.Some? {
        var i :| 0 <= i < |ps[1..]| && ps[1..][i].requiredServices.Some?;
        assert ps[i + 1].requiredServices.Some?;
      }
      if exists i | 0 <= i < |ps| :: ps[i].requiredServices.Some? {
        var i :| 0 <= i < |ps| && ps[i].requiredServices.Some?;
        if i > 0 {
          assert ps[1..][i - 1].requiredServices.Some?;
        }
      }
    }
  }

  /**
    What a builder call returns, as a record of the call: `factory(config)`
    or `singleton(config)`, made at bootstrap time.
   */
  datatype Instance = Called(builder: Builder, config: Option<seq<string>>)

  /**
    `implementation.factory ? implementation.factory(config)
                            : implementation.singleton(config)`;
    None when neither builder is there (calling undefined throws).
   */
  function Build(def: ServiceDefinition, impl: Implementation): (r: Option<Instance>)
    ensures r.Some? <==> impl.factory.Some? || impl.singleton.Some?
    ensures r.Some? ==> r.value.config == def.config
    ensures r.Some? ==> r.value.builder == if impl.factory.Some? then impl.factory.value else impl.singleton.value
  {
    if impl.factory.Some? then Some(Called(impl.factory.value, def.config))
    else if impl.singleton.Some? then Some(Called(impl.singleton.value, def.config))
    else None
  }

  /** Every implemented service has a builder to call. */
  predicate Buildable(defs: map<Name, ServiceDefinition>) {
    forall k | k in defs && defs[k].implementation.Some? :: Build(defs[k], defs[k].implementation.value).Some?
  }

  /**
    The loop of src/bootstrap.ts:90-99. On success `serviceFactories` has
    exactly the implemented service names, each bound to the call of its
    factory (preferred) or singleton with that service's own `config`.
    Err names an implemented service without a builder.
   */
  method Instantiate(defs: map<Name, ServiceDefinition>) returns (r: Result<map<Name, Instance>, Name>)
    ensures r.Ok? <==> Buildable(defs)
    ensures r.Ok? ==> r.value.Keys == ServiceImpls(defs)
    ensures r.Ok? ==> forall k | k in r.value ::
              k in defs && defs[k].implementation.Some? && Build(defs[k], defs[k].implementation.value) == Some(r.value[k])
    ensures r.Err? ==> r.error in defs && defs[r.error].implementation.Some?
                       && Build(defs[r.error], defs[r.error].implementation.value).None?
  {
    var factories: map<Name, Instance> := map[];
    var todo := defs.Keys;
    while todo != {}
      invariant todo <= defs.Keys
      invariant factories.Keys == ServiceImpls(defs) - todo
      invariant forall k | k in factories ::
                  k in defs && defs[k].implementation.Some? && Build(defs[k], defs[k].implementation.value) == Some(factories[k])
      invariant forall k | k in defs && k !in todo && defs[k].implementation.Some? ::
                  Build(defs[k], defs[k].implementation.value).Some?
      decreases |todo|
    {
      var name :| name in todo;
      var def := defs[name];
      if def.implementation.Some? {
        var impl := def.implementation.value;
        if impl.factory.Some? {
          factories := factories[name := Called(impl.factory.value, def.config)];
        } else if impl.singleton.Some? {
          factories := factories[name := Called(impl.singleton.value, def.config)];
        } else {
          return Err(name);
        }
      }
      todo := todo - {name};
    }
    return Ok(factories);
  }
}
