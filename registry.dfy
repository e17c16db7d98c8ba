/** The plugin registry of a client configuration: a keyed collection of
    registrations kept in ascending priority order, and the lazy lifecycle of
    plugins registered by type (registered, then constructed on first use,
    then disposed on removal).  Tie-breaking among equal priorities and the
    exact priority of an unannotated plugin are left open: contracts only
    promise ascending order, and the default priority is a parameter known
    only to be below 1. */
module Registry {
  import opened Models

  /** The inline function plugins that the configuration can register. */
  datatype InlineAction = CancelEvent | AddTag(tag: string) | SetVersion(version: string)

  /** The plugin classes the client knows: the built-in ones and the test
      plugins whose behaviour the lifecycle depends on. */
  datatype PluginType =
    | ConfigurationDefaultsPlugin
    | HandleAggregateExceptionsPlugin
    | ErrorPlugin
    | SimpleErrorPlugin
    | SetEnvironmentUserPlugin
    | EnvironmentInfoPlugin
    | CancelSessionsWithNoUserPlugin
    | IgnoreUserAgentPlugin
    | ReferenceIdPlugin
    | CounterTestPlugin
    | ThrowIfInitializedTestPlugin
    | PluginWithNoPriority
    | PluginWithPriority11

  /** A type registration is keyed by the full name of the type. */
  function TypeKey(t: PluginType): string {
    match t
    case ConfigurationDefaultsPlugin => "Exceptionless.Plugins.Default.ConfigurationDefaultsPlugin"
    case HandleAggregateExceptionsPlugin => "Exceptionless.Plugins.Default.HandleAggregateExceptionsPlugin"
    case ErrorPlugin => "Exceptionless.Plugins.Default.ErrorPlugin"
    case SimpleErrorPlugin => "Exceptionless.Plugins.Default.SimpleErrorPlugin"
    case SetEnvironmentUserPlugin => "Exceptionless.Plugins.Default.SetEnvironmentUserPlugin"
    case EnvironmentInfoPlugin => "Exceptionless.Plugins.Default.EnvironmentInfoPlugin"
    case CancelSessionsWithNoUserPlugin => "Exceptionless.Plugins.Default.CancelSessionsWithNoUserPlugin"
    case IgnoreUserAgentPlugin => "Exceptionless.Plugins.Default.IgnoreUserAgentPlugin"
    case ReferenceIdPlugin => "Exceptionless.Plugins.Default.ReferenceIdPlugin"
    case CounterTestPlugin => "Exceptionless.Tests.Plugins.PluginTests+CounterTestPlugin"
    case ThrowIfInitializedTestPlugin => "Exceptionless.Tests.Plugins.PluginTests+ThrowIfInitializedTestPlugin"
    case PluginWithNoPriority => "Exceptionless.Tests.Plugins.PluginTests+PluginWithNoPriority"
    case PluginWithPriority11 => "Exceptionless.Tests.Plugins.PluginTests+PluginWithPriority11"
  }

  /** The priority a type declares; a type without a declaration gets
      `defaultPriority`.  The built-in values only respect the order the
      pipeline relies on: defaults first, aggregate unwrapping before error
      extraction, identity before the session check, environment info after
      every test plugin. */
  function PriorityOf(t: PluginType, defaultPriority: int): int {
    match t
    case ConfigurationDefaultsPlugin => 10
    case HandleAggregateExceptionsPlugin => 20
    case ErrorPlugin => 30
    case SimpleErrorPlugin => 30
    case SetEnvironmentUserPlugin => 45
    case EnvironmentInfoPlugin => 70
    case CancelSessionsWithNoUserPlugin => 80
    case IgnoreUserAgentPlugin => 90
    case ReferenceIdPlugin => 100
    case PluginWithPriority11 => 11
    case CounterTestPlugin => defaultPriority
    case ThrowIfInitializedTestPlugin => defaultPriority
    case PluginWithNoPriority => defaultPriority
  }

  /** The test plugin whose constructor throws. */
  predicate FailsToConstruct(t: PluginType) {
    t.ThrowIfInitializedTestPlugin?
  }

  datatype Target = Typed(pluginType: PluginType) | Inline(action: InlineAction)

  datatype Registration = Registration(key: string, priority: int, target: Target)

  /** The registration `AddPlugin<T>()` creates. */
  function TypeRegistration(t: PluginType, defaultPriority: int): Registration {
    Registration(TypeKey(t), PriorityOf(t, defaultPriority), Typed(t))
  }

  // ---------------------------------------------------------------------
  // The ordered, keyed collection

  predicate Sorted(regs: seq<Registration>) {
    forall i, j :: 0 <= i < j < |regs| ==> regs[i].priority <= regs[j].priority
  }

  predicate StrictlySorted(regs: seq<Registration>) {
    forall i, j :: 0 <= i < j < |regs| ==> regs[i].priority < regs[j].priority
  }

  predicate UniqueKeys(regs: seq<Registration>) {
    forall i, j :: 0 <= i < j < |regs| ==> regs[i].key != regs[j].key
  }

  function Keys(regs: seq<Registration>): set<string> {
    set r | r in regs :: r.key
  }

  /** The registration under `key`, if there is one. */
  function Find(regs: seq<Registration>, key: string): (r: Option<Registration>)
    ensures r.Some? ==> r.value in regs && r.value.key == key
    ensures r.None? ==> key !in Keys(regs)
  {
    if regs == [] then None
    else if regs[0].key == key then Some(regs[0])
    else
      var r := Find(regs[1..], key);
      assert key in Keys(regs) ==> key in Keys(regs[1..]) by {
        if key in Keys(regs) {
          var x :| x in regs && x.key == key;
          assert x in regs[1..];
        }
      }
      r
  }

  /** With distinct keys, the registration found under a member's key is
      that member. */
  lemma FindUnique(regs: seq<Registration>, reg: Registration)
    requires UniqueKeys(regs) && reg in regs
    ensures Find(regs, reg.key) == Some(reg)
  {
    assert reg.key in Keys(regs);
    var r := Find(regs, reg.key).value;
    var i :| 0 <= i < |regs| && regs[i] == r;
    var j :| 0 <= j < |regs| && regs[j] == reg;
    assert i == j;
  }

  /** The collection without the registration under `key`. */
  function RemoveKey(regs: seq<Registration>, key: string): (r: seq<Registration>)
    ensures forall x :: x in r <==> x in regs && x.key != key
    ensures |r| <= |regs|
  {
    if regs == [] then []
    else
      var rest := RemoveKey(regs[1..], key);
      assert forall x :: x in regs[1..] ==> x in regs;
      if regs[0].key == key then rest else [regs[0]] + rest
  }

  /** Every later member of a collection has a priority at least that of the
      first when it is ordered, and a different key when it is keyed. */
  lemma HeadBeforeTail(regs: seq<Registration>, x: Registration)
    requires regs != [] && x in regs[1..]
    ensures Sorted(regs) ==> regs[0].priority <= x.priority
    ensures UniqueKeys(regs) ==> regs[0].key != x.key
  {
    var k :| 0 <= k < |regs[1..]| && regs[1..][k] == x;
    assert regs[k + 1] == x;
  }

  lemma PrependSorted(reg: Registration, rest: seq<Registration>)
    requires Sorted(rest)
    requires forall x :: x in rest ==> reg.priority <= x.priority
    ensures Sorted([reg] + rest)
  {
    var r := [reg] + rest;
    forall i, j | 0 <= i < j < |r| ensures r[i].priority <= r[j].priority {
      assert r[j] == rest[j - 1];
      if i > 0 {
        assert r[i] == rest[i - 1];
      }
    }
  }

  lemma PrependUnique(reg: Registration, rest: seq<Registration>)
    requires UniqueKeys(rest)
    requires forall x :: x in rest ==> reg.key != x.key
    ensures UniqueKeys([reg] + rest)
  {
    var r := [reg] + rest;
    forall i, j | 0 <= i < j < |r| ensures r[i].key != r[j].key {
      assert r[j] == rest[j - 1];
      if i > 0 {
        assert r[i] == rest[i - 1];
      }
    }
  }

  /** Removing a key keeps an ordered collection ordered. */
  lemma {:induction false} RemoveKeySorted(regs: seq<Registration>, key: string)
    requires Sorted(regs)
    ensures Sorted(RemoveKey(regs, key))
  {
    if regs != [] {
      var rest := RemoveKey(regs[1..], key);
      RemoveKeySorted(regs[1..], key);
      if regs[0].key != key {
        forall x | x in rest ensures regs[0].priority <= x.priority {
          HeadBeforeTail(regs, x);
        }
        PrependSorted(regs[0], rest);
      }
    }
  }

  /** Removing a key keeps a keyed collection keyed. */
  lemma {:induction false} RemoveKeyUnique(regs: seq<Registration>, key: string)
    requires UniqueKeys(regs)
    ensures UniqueKeys(RemoveKey(regs, key))
  {
    if regs != [] {
      var rest := RemoveKey(regs[1..], key);
      RemoveKeyUnique(regs[1..], key);
      if regs[0].key != key {
        forall x | x in rest ensures regs[0].key != x.key {
          HeadBeforeTail(regs, x);
        }
        PrependUnique(regs[0], rest);
      }
    }
  }

  /** Removing a key that is not registered changes nothing. */
  lemma {:induction false} RemoveKeyAbsent(regs: seq<Registration>, key: string)
    requires key !in Keys(regs)
    ensures RemoveKey(regs, key) == regs
  {
    if regs != [] {
      assert regs[0] in regs;
      assert key !in Keys(regs[1..]) by {
        forall x | x in regs[1..] ensures x.key != key {
          assert x in regs;
        }
      }
      RemoveKeyAbsent(regs[1..], key);
      assert regs == [regs[0]] + regs[1..];
    }
  }

  /** The collection with `reg` placed after every registration of lower or
      equal priority. */
  function Insert(regs: seq<Registration>, reg: Registration): (r: seq<Registration>)
    ensures multiset(r) == multiset(regs) + multiset{reg}
  {
    if regs == [] || reg.priority < regs[0].priority then [reg] + regs
    else
      assert regs == [regs[0]] + regs[1..];
      [regs[0]] + Insert(regs[1..], reg)
  }

  lemma InsertMembers(regs: seq<Registration>, reg: Registration)
    ensures forall x :: x in Insert(regs, reg) <==> x == reg || x in regs
  {
    var r := Insert(regs, reg);
    forall x ensures x in r <==> x == reg || x in regs {
      assert x in r <==> x in multiset(r);
      assert x in regs <==> x in multiset(regs);
    }
  }

  /** Inserting keeps an ordered collection ordered. */
  lemma {:induction false} InsertSorted(regs: seq<Registration>, reg: Registration)
    requires Sorted(regs)
    ensures Sorted(Insert(regs, reg))
  {
    if regs == [] || reg.priority < regs[0].priority {
      forall x | x in regs ensures reg.priority <= x.priority {
        var k :| 0 <= k < |regs| && regs[k] == x;
      }
      PrependSorted(reg, regs);
    } else {
      var rest := Insert(regs[1..], reg);
      InsertSorted(regs[1..], reg);
      InsertMembers(regs[1..], reg);
      forall x | x in rest ensures regs[0].priority <= x.priority {
        if x != reg {
          HeadBeforeTail(regs, x);
        }
      }
      PrependSorted(regs[0], rest);
    }
  }

  /** Inserting a registration under a new key keeps a keyed collection
      keyed. */
  lemma {:induction false} InsertUnique(regs: seq<Registration>, reg: Registration)
    requires UniqueKeys(regs) && reg.key !in Keys(regs)
    ensures UniqueKeys(Insert(regs, reg))
  {
    if regs == [] || reg.priority < regs[0].priority {
      PrependUnique(reg, regs);
    } else {
      var rest := Insert(regs[1..], reg);
      assert regs[0] in regs;
      assert reg.key !in Keys(regs[1..]) by {
        forall x | x in regs[1..] ensures x.key != reg.key {
          assert x in regs;
        }
      }
      InsertUnique(regs[1..], reg);
      InsertMembers(regs[1..], reg);
      forall x | x in rest ensures regs[0].key != x.key {
        if x != reg {
          HeadBeforeTail(regs, x);
        }
      }
      PrependUnique(regs[0], rest);
    }
  }

  /** Adding a registration: any registration under the same key is replaced,
      and the collection stays ordered and keyed. */
  function Add(regs: seq<Registration>, reg: Registration): (r: seq<Registration>)
    requires Sorted(regs) && UniqueKeys(regs)
    ensures Sorted(r) && UniqueKeys(r)
    ensures forall x :: x in r <==> x == reg || (x in regs && x.key != reg.key)
    ensures Keys(r) == Keys(regs) + {reg.key}
  {
    var rest := RemoveKey(regs, reg.key);
    RemoveKeySorted(regs, reg.key);
    RemoveKeyUnique(regs, reg.key);
    var r := Insert(rest, reg);
    InsertSorted(rest, reg);
    InsertUnique(rest, reg);
    InsertMembers(rest, reg);
    assert Keys(r) == Keys(regs) + {reg.key} by {
      forall k | k in Keys(regs) + {reg.key} ensures k in Keys(r) {
        if k != reg.key {
          var x :| x in regs && x.key == k;
          assert x in r;
        } else {
          assert reg in r;
        }
      }
    }
    r
  }

  /** Removing the key of an inserted registration takes the collection back,
      when the key was not there before. */
  lemma {:induction false} RemoveInserted(regs: seq<Registration>, reg: Registration)
    requires reg.key !in Keys(regs)
    ensures RemoveKey(Insert(regs, reg), reg.key) == regs
  {
    if regs == [] || reg.priority < regs[0].priority {
      assert Insert(regs, reg) == [reg] + regs;
      assert ([reg] + regs)[1..] == regs;
      RemoveKeyAbsent(regs, reg.key);
    } else {
      var rest := Insert(regs[1..], reg);
      assert Insert(regs, reg) == [regs[0]] + rest;
      assert ([regs[0]] + rest)[1..] == rest;
      assert reg.key !in Keys(regs[1..]);
      assert regs[0].key != reg.key;
      RemoveInserted(regs[1..], reg);
      assert regs == [regs[0]] + regs[1..];
    }
  }

  /** Adding the same registration twice leaves one registration under its
      key, exactly as adding it once does. */
  lemma AddTwiceIsOnce(regs: seq<Registration>, reg: Registration)
    requires Sorted(regs) && UniqueKeys(regs)
    ensures Add(Add(regs, reg), reg) == Add(regs, reg)
  {
    var rest := RemoveKey(regs, reg.key);
    RemoveInserted(rest, reg);
  }

  /** In a collection ordered by strictly increasing priority, the first
      member has the least priority, and only it has that priority. */
  lemma FirstIsLeast(s: seq<Registration>, x: Registration)
    requires StrictlySorted(s) && x in s
    ensures s[0].priority <= x.priority
    ensures x.priority == s[0].priority ==> x == s[0]
  {
    var k :| 0 <= k < |s| && s[k] == x;
  }

  /** Dropping a shared first member from two strictly ordered collections
      with the same members leaves tails with the same members. */
  lemma SameTails(a: seq<Registration>, b: seq<Registration>)
    requires StrictlySorted(a) && StrictlySorted(b)
    requires a != [] && b != [] && a[0] == b[0]
    requires forall x :: x in a <==> x in b
    ensures forall x :: x in a[1..] <==> x in b[1..]
  {
    assert a == [a[0]] + a[1..];
    assert b == [b[0]] + b[1..];
    forall x | x in a[1..] ensures x in b[1..] {
      var i :| 0 <= i < |a[1..]| && a[1..][i] == x;
      assert a[i + 1] == x;
      assert x in b && x != b[0];
    }
    forall x | x in b[1..] ensures x in a[1..] {
      var i :| 0 <= i < |b[1..]| && b[1..][i] == x;
      assert b[i + 1] == x;
      assert x in a && x != a[0];
    }
  }

  /** A collection ordered by strictly increasing priority is determined by
      its members: two such collections with the same members are equal. */
  lemma {:induction false} StrictOrderDetermined(a: seq<Registration>, b: seq<Registration>)
    requires StrictlySorted(a) && StrictlySorted(b)
    requires forall x :: x in a <==> x in b
    ensures a == b
    decreases |a|
  {
    assert |b| > 0 ==> b[0] in a;
    assert |a| > 0 ==> a[0] in b;
    if a != [] && b != [] {
      FirstIsLeast(b, a[0]);
      FirstIsLeast(a, b[0]);
      SameTails(a, b);
      StrictOrderDetermined(a[1..], b[1..]);
      assert a == [a[0]] + a[1..];
      assert b == [b[0]] + b[1..];
    }
  }

  // ---------------------------------------------------------------------
  // Lazy lifecycle

  /** The static counters of the test plugin `CounterTestPlugin`. */
  datatype Counters = Counters(constructed: nat, runs: nat, disposed: nat)

  /** The whole plugin state of a configuration: its registrations, the keys
      whose lazily created instance exists, and the counters. */
  datatype PluginState = PluginState(regs: seq<Registration>, constructed: set<string>, counters: Counters)

  /** Ordered, keyed, and only registered keys have an instance. */
  predicate Wf(p: PluginState) {
    Sorted(p.regs) && UniqueKeys(p.regs) && p.constructed <= Keys(p.regs)
  }

  /** Registering never constructs: the new registration starts without an
      instance, and a replaced one is dropped without being disposed. */
  function AddPlugin(p: PluginState, reg: Registration): (q: PluginState)
    requires Wf(p)
    ensures Wf(q)
    ensures forall x :: x in q.regs <==> x == reg || (x in p.regs && x.key != reg.key)
    ensures q.constructed == p.constructed - {reg.key}
    ensures q.counters == p.counters
  {
    PluginState(Add(p.regs, reg), p.constructed - {reg.key}, p.counters)
  }

  /** Removing a key: an instance that was constructed is disposed (only the
      counting test plugin shows it); a key not registered is a no-op. */
  function RemovePlugin(p: PluginState, key: string): (q: PluginState)
    requires Wf(p)
    ensures Wf(q)
    ensures forall x :: x in q.regs <==> x in p.regs && x.key != key
    ensures key !in Keys(q.regs) && key !in q.constructed
    ensures q.constructed == p.constructed - {key}
    ensures q.counters.constructed == p.counters.constructed && q.counters.runs == p.counters.runs
    ensures q.counters.disposed == p.counters.disposed +
              (if key in p.constructed && Find(p.regs, key) == Some(Registration(key, Find(p.regs, key).value.priority, Typed(CounterTestPlugin))) then 1 else 0)
    ensures key !in Keys(p.regs) ==> q == p
  {
    match Find(p.regs, key)
    case None => p
    case Some(reg) =>
      var disposes := key in p.constructed && reg.target == Typed(CounterTestPlugin);
      var regs := RemoveKey(p.regs, key);
      RemoveKeySorted(p.regs, key);
      RemoveKeyUnique(p.regs, key);
      assert key !in Keys(regs);
      assert p.constructed - {key} <= Keys(regs) by {
        forall k | k in p.constructed - {key} ensures k in Keys(regs) {
          var x :| x in p.regs && x.key == k;
          assert x in regs;
        }
      }
      PluginState(regs, p.constructed - {key},
        p.counters.(disposed := p.counters.disposed + if disposes then 1 else 0))
  }

  /** Removing the first registration leaves the rest, drops its instance and
      counts a disposal exactly when it is a constructed counting plugin. */
  lemma RemoveHead(p: PluginState)
    requires Wf(p) && p.regs != []
    ensures var key := p.regs[0].key;
            var q := RemovePlugin(p, key);
            && q.regs == p.regs[1..] && q.constructed == p.constructed - {key}
            && q.counters == p.counters.(disposed := p.counters.disposed +
                 (if key in p.constructed && p.regs[0].target == Typed(CounterTestPlugin) then 1 else 0))
  {
    var key := p.regs[0].key;
    assert key !in Keys(p.regs[1..]) by {
      forall x | x in p.regs[1..] ensures x.key != key {
        var j :| 1 <= j < |p.regs| && p.regs[j] == x;
      }
    }
    RemoveKeyAbsent(p.regs[1..], key);
    FindUnique(p.regs, p.regs[0]);
  }

  /** How many of `regs` are constructed counting plugins, that is, how many
      disposals removing all of them counts. */
  function CountingDisposals(regs: seq<Registration>, constructed: set<string>): (n: nat)
    ensures n <= |regs|
    ensures (forall x :: x in regs ==> x.target != Typed(CounterTestPlugin)) ==> n == 0
  {
    if regs == [] then 0
    else (if regs[0].key in constructed && regs[0].target == Typed(CounterTestPlugin) then 1 else 0)
         + CountingDisposals(regs[1..], constructed)
  }

  /** Obtaining the instance of a type registration: an existing instance is
      reused, otherwise one is constructed (counted for the counting test
      plugin); a constructor that throws leaves everything as it was and
      reports failure. */
  function Materialize(p: PluginState, reg: Registration): (result: (bool, PluginState))
    requires Wf(p) && reg in p.regs && reg.target.Typed?
    ensures Wf(result.1) && result.1.regs == p.regs
    ensures result.0 <==> reg.key in p.constructed || !FailsToConstruct(reg.target.pluginType)
    ensures result.0 <==> reg.key in result.1.constructed
    ensures result.1.constructed - {reg.key} == p.constructed - {reg.key}
    ensures result.1.counters.constructed == p.counters.constructed +
              (if reg.key !in p.constructed && reg.target.pluginType.CounterTestPlugin? then 1 else 0)
    ensures result.1.counters.runs == p.counters.runs && result.1.counters.disposed == p.counters.disposed
  {
    if reg.key in p.constructed then (true, p)
    else if FailsToConstruct(reg.target.pluginType) then (false, p)
    else
      var bump := if reg.target.pluginType.CounterTestPlugin? then 1 else 0;
      (true, p.(constructed := p.constructed + {reg.key},
                counters := p.counters.(constructed := p.counters.constructed + bump)))
  }

  /** Adding a type and removing it again neither constructs nor disposes:
      the counters are untouched and the registry ends as if the key had been
      removed. */
  lemma AddThenRemoveIsInert(p: PluginState, t: PluginType, defaultPriority: int)
    requires Wf(p)
    ensures var reg := TypeRegistration(t, defaultPriority);
            var q := RemovePlugin(AddPlugin(p, reg), reg.key);
            q.counters == p.counters && q.regs == RemoveKey(p.regs, reg.key)
            && q.constructed == p.constructed - {reg.key}
  {
    var reg := TypeRegistration(t, defaultPriority);
    var added := AddPlugin(p, reg);
    RemoveInserted(RemoveKey(p.regs, reg.key), reg);
    assert reg.key !in added.constructed;
  }

  /** Removing twice is removing once: the second removal is a no-op. */
  lemma RemoveTwiceIsOnce(p: PluginState, key: string)
    requires Wf(p)
    ensures RemovePlugin(RemovePlugin(p, key), key) == RemovePlugin(p, key)
  {
  }
}
