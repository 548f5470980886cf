/**
  Plugin descriptors as bootstrap() receives them (after the plugin factories
  have been called), and the stable sort by priority of src/bootstrap.ts:37.
 */
module Plugins {

  datatype Option<+T> = None | Some(value: T)

  datatype Result<+T, +E> = Ok(value: T) | Err(error: E)

  type Name = string

  /** The distinguished root plugin. */
  const CORE: Name := "core"

  /** Opaque closures and values that the engine only passes around. */
  datatype Builder = Builder(id: nat)
  datatype Hook = Hook(id: nat)
  datatype Config = Config(id: nat)

  /** A service implementation: `factory` and/or `singleton` builders. */
  datatype Implementation = Implementation(factory: Option<Builder>, singleton: Option<Builder>)

  /**
    One plugin's stake in a named service: its own `config` list (None when
    the field is absent) and an optional implementation.
   */
  datatype ServiceDefinition = ServiceDefinition(config: Option<seq<string>>, implementation: Option<Implementation>)

  /**
    A plugin's `priority` as `_.sortBy` compares it: a JavaScript number, or
    Unset when the descriptor has no `priority` field.
   */
  datatype Priority = Given(value: real) | Unset

  /**
    lodash's ascending comparison of two priorities: numbers by value, and an
    absent priority after every number and level with another absent one.
   */
  predicate NotAfter(a: Priority, b: Priority) {
    b.Unset? || (a.Given? && a.value <= b.value)
  }

  /**
    A plugin descriptor. `before`/`after` are `order.before`/`order.after`
    with the defaults of src/bootstrap.ts:44 applied (absent means []).
    `requiredServices` is Some exactly when `dependsOn.services` is present,
    and an absent `serviceDefinitions` is the empty map.
   */
  datatype Plugin = Plugin(
    name: Name,
    priority: Priority,
    before: seq<Name>,
    after: seq<Name>,
    schema: seq<string>,
    serviceDefinitions: map<Name, ServiceDefinition>,
    requiredServices: Option<seq<Name>>,
    init: Option<Hook>)

  /** Some plugin of the list is named core. */
  predicate HasCore(ps: seq<Plugin>) {
    exists i | 0 <= i < |ps| :: ps[i].name == CORE
  }

  /**
    `_.find(plugins, { name: 'core' })`: the first plugin named core. It finds
    one exactly when the list has core.
   */
  function FindCore(ps: seq<Plugin>): (r: Option<Plugin>)
    ensures r.Some? <==> HasCore(ps)
    ensures r.Some? ==>
              exists i | 0 <= i < |ps| :: ps[i] == r.value && r.value.name == CORE
                && forall j | 0 <= j < i :: ps[j].name != CORE
  {
    if ps == [] then None
    else if ps[0].name == CORE then Some(ps[0])
    else
      var r := FindCore(ps[1..]);
      assert HasCore(ps[1..]) ==> HasCore(ps) by {
        if HasCore(ps[1..]) {
          var i :| 0 <= i < |ps[1..]| && ps[1..][i].name == CORE;
          assert ps[i + 1] == ps[1..][i];
        }
      }
      assert HasCore(ps) ==> HasCore(ps[1..]) by {
        if HasCore(ps) {
          var i :| 0 <= i < |ps| && ps[i].name == CORE;
          assert ps[1..][i - 1] == ps[i];
        }
      }
      assert r.Some? ==>
               exists i | 0 <= i < |ps| :: ps[i] == r.value && r.value.name == CORE
                 && forall j | 0 <= j < i :: ps[j].name != CORE by {
        if r.Some? {
          var i :| 0 <= i < |ps[1..]| && ps[1..][i] == r.value && r.value.name == CORE
                   && forall j | 0 <= j < i :: ps[1..][j].name != CORE;
          assert ps[i + 1] == r.value;
          assert forall j | 0 <= j < i + 1 :: ps[j].name != CORE by {
            forall j | 0 <= j < i + 1 ensures ps[j].name != CORE {
              if j > 0 {
                assert ps[j] == ps[1..][j - 1];
              }
            }
          }
        }
      }
      r
  }

  predicate SortedByPriority(s: seq<Plugin>) {
    forall i, j | 0 <= i < j < |s| :: NotAfter(s[i].priority, s[j].priority)
  }

  /** The plugins of priority k, in the order they appear in s. */
  function OfPriority(s: seq<Plugin>, k: Priority): seq<Plugin> {
    if s == [] then []
    else (if s[0].priority == k then [s[0]] else []) + OfPriority(s[1..], k)
  }

  /** Puts p in front of every plugin whose priority is not lower than its own. */
  function Insert(p: Plugin, s: seq<Plugin>): (r: seq<Plugin>)
    ensures multiset(r) == multiset(s) + multiset{p}
  {
    if s == [] || NotAfter(p.priority, s[0].priority) then [p] + s
    else
      assert s == [s[0]] + s[1..];
      [s[0]] + Insert(p, s[1..])
  }

  /** Every plugin of Insert(p, s) is p or a plugin of s. */
  lemma InsertMembers(p: Plugin, s: seq<Plugin>, x: Plugin)
    requires x in Insert(p, s)
    ensures x == p || x in s
  {
    assert x in multiset(Insert(p, s));
  }

  lemma {:induction false} InsertSorted(p: Plugin, s: seq<Plugin>)
    requires SortedByPriority(s)
    ensures SortedByPriority(Insert(p, s))
  {
    if s != [] && !NotAfter(p.priority, s[0].priority) {
      var rest := Insert(p, s[1..]);
      InsertSorted(p, s[1..]);
      forall j | 0 <= j < |rest| ensures NotAfter(s[0].priority, rest[j].priority) {
        InsertMembers(p, s[1..], rest[j]);
      }
      assert Insert(p, s) == [s[0]] + rest;
    }
  }

  /** `_.sortBy(plugins, 'priority')`: a stable sort by ascending priority. */
  function SortByPriority(ps: seq<Plugin>): (r: seq<Plugin>)
    ensures multiset(r) == multiset(ps)
    ensures SortedByPriority(r)
  {
    if ps == [] then []
    else
      assert ps == [ps[0]] + ps[1..];
      InsertSorted(ps[0], SortByPriority(ps[1..]));
      Insert(ps[0], SortByPriority(ps[1..]))
  }

  lemma {:induction false} InsertStable(p: Plugin, s: seq<Plugin>, k: Priority)
    requires SortedByPriority(s)
    ensures OfPriority(Insert(p, s), k) == OfPriority([p] + s, k)
  {
    if s == [] || NotAfter(p.priority, s[0].priority) {
    } else {
      var rest := s[1..];
      assert SortedByPriority(rest);
      InsertStable(p, rest, k);
      // p and s[0] differ in priority, so at most one of them is kept
      assert p.priority != s[0].priority;
      var first := if s[0].priority == k then [s[0]] else [];
      var mid := if p.priority == k then [p] else [];
      assert first + mid == mid + first;
      calc {
        OfPriority(Insert(p, s), k);
        { assert Insert(p, s) == [s[0]] + Insert(p, rest);
          assert ([s[0]] + Insert(p, rest))[1..] == Insert(p, rest); }
        first + OfPriority(Insert(p, rest), k);
        first + OfPriority([p] + rest, k);
        { assert ([p] + rest)[1..] == rest; }
        first + (mid + OfPriority(rest, k));
        mid + (first + OfPriority(rest, k));
        { assert s == [s[0]] + rest; }
        mid + OfPriority(s, k);
        { assert ([p] + s)[1..] == s; }
        OfPriority([p] + s, k);
      }
    }
  }

  /**
    Stability: for every priority, the plugins of that priority keep their
    relative input order.
   */
  lemma {:induction false} SortStable(ps: seq<Plugin>, k: Priority)
    ensures OfPriority(SortByPriority(ps), k) == OfPriority(ps, k)
  {
    if ps != [] {
      SortStable(ps[1..], k);
      InsertStable(ps[0], SortByPriority(ps[1..]), k);
      assert ([ps[0]] + SortByPriority(ps[1..]))[1..] == SortByPriority(ps[1..]);
    }
  }

  /** A list already in priority order comes out of the sort unchanged. */
  lemma {:induction false} SortSortedIdentity(ps: seq<Plugin>)
    requires SortedByPriority(ps)
    ensures SortByPriority(ps) == ps
  {
    if ps != [] {
      SortSortedIdentity(ps[1..]);
      assert ps == [ps[0]] + ps[1..];
    }
  }

  /** Sorting neither adds nor drops a plugin. */
  lemma SortKeepsMembers(ps: seq<Plugin>, p: Plugin)
    ensures p in SortByPriority(ps) <==> p in ps
  {
    var r := SortByPriority(ps);
    assert p in r <==> p in multiset(r);
    assert p in ps <==> p in multiset(ps);
  }
}
