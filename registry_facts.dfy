/** The enumeration order of the registry: registrations come out in
    ascending priority, so when the priorities differ the order is fully
    determined by the set of registrations. */
module RegistryFacts {
  import opened Models
  import opened Registry

  /** An ordered, keyed collection with the same members as a collection in
      strictly ascending priority is that collection. */
  lemma OrderedIsDetermined(r: seq<Registration>, e: seq<Registration>)
    requires Sorted(r) && UniqueKeys(r) && StrictlySorted(e)
    requires forall x :: x in r <==> x in e
    ensures r == e
  {
    assert StrictlySorted(r) by {
      forall i, j | 0 <= i < j < |r| ensures r[i].priority < r[j].priority {
        assert r[i] in e && r[j] in e;
        var a :| 0 <= a < |e| && e[a] == r[i];
        var b :| 0 <= b < |e| && e[b] == r[j];
        assert r[i].key != r[j].key;
        assert a != b;
      }
    }
    StrictOrderDetermined(r, e);
  }

  /** The registrations of the priority test: an unannotated type, three
      inline plugins keyed "version", "version2" and "version3" at 1, 2 and 3,
      the type annotated with priority 11 and the environment-info plugin. */
  function PriorityTestOrder(defaultPriority: int): seq<Registration> {
    [TypeRegistration(PluginWithNoPriority, defaultPriority),
     Registration("version", 1, Inline(SetVersion("1.0.0.0"))),
     Registration("version2", 2, Inline(SetVersion("1.0.0.0"))),
     Registration("version3", 3, Inline(SetVersion("1.0.0.0"))),
     TypeRegistration(PluginWithPriority11, defaultPriority),
     TypeRegistration(EnvironmentInfoPlugin, defaultPriority)]
  }

  /** The order the priority test expects, position by position. */
  lemma PriorityTestPositions(defaultPriority: int)
    ensures var o := PriorityTestOrder(defaultPriority);
            && |o| == 6 && o[0].target == Typed(PluginWithNoPriority)
            && o[1].key == "version" && o[2].key == "version2" && o[3].key == "version3"
            && o[4].target == Typed(PluginWithPriority11) && o[5].target == Typed(EnvironmentInfoPlugin)
  {
  }

  /** Adding a registration whose key is new adds exactly that member. */
  lemma AddNew(regs: seq<Registration>, reg: Registration, members: set<Registration>)
    requires Sorted(regs) && UniqueKeys(regs)
    requires forall x :: x in regs <==> x in members
    requires forall x :: x in members ==> x.key != reg.key
    ensures Sorted(Add(regs, reg)) && UniqueKeys(Add(regs, reg))
    ensures forall x :: x in Add(regs, reg) <==> x in members + {reg}
  {
  }

  lemma SixMembers(o: seq<Registration>)
    requires |o| == 6
    ensures forall x :: x in o <==> x in {o[5], o[4], o[0]} + {o[1], o[2], o[3]}
  {
    forall x ensures x in o <==> x in {o[5], o[4], o[0]} + {o[1], o[2], o[3]} {
      if x in o {
        var i :| 0 <= i < 6 && o[i] == x;
        assert i == 0 || i == 1 || i == 2 || i == 3 || i == 4 || i == 5;
      }
    }
  }

  lemma DeterminedBySix(r: seq<Registration>, o: seq<Registration>)
    requires |o| == 6 && StrictlySorted(o) && Sorted(r) && UniqueKeys(r)
    requires forall x :: x in r <==> x in {o[5], o[4], o[0]} + {o[1], o[2], o[3]}
    ensures r == o
  {
    SixMembers(o);
    OrderedIsDetermined(r, o);
  }

  lemma AddThree(regs: seq<Registration>, a: Registration, b: Registration, c: Registration,
                 members: set<Registration>)
    requires Sorted(regs) && UniqueKeys(regs)
    requires forall x :: x in regs <==> x in members
    requires forall x :: x in members ==> x.key != a.key && x.key != b.key && x.key != c.key
    requires a.key != b.key && a.key != c.key && b.key != c.key
    ensures Sorted(Add(Add(Add(regs, a), b), c)) && UniqueKeys(Add(Add(Add(regs, a), b), c))
    ensures forall x :: x in Add(Add(Add(regs, a), b), c) <==> x in members + {a, b, c}
  {
    AddNew(regs, a, members);
    AddNew(Add(regs, a), b, members + {a});
    AddNew(Add(Add(regs, a), b), c, members + {a, b});
  }

  /** Six registrations under distinct keys in strictly ascending priority,
      added in the order of the priority test, are enumerated in priority
      order. */
  lemma AddedInTestOrder(o: seq<Registration>)
    requires |o| == 6 && StrictlySorted(o)
    requires forall i, j :: 0 <= i < j < 6 ==> o[i].key != o[j].key
    ensures Add(Add(Add(Add(Add(Add([], o[5]), o[4]), o[0]), o[1]), o[2]), o[3]) == o
  {
    assert o[0].key != o[4].key && o[0].key != o[5].key && o[4].key != o[5].key;
    AddThree([], o[5], o[4], o[0], {});
    var r3 := Add(Add(Add([], o[5]), o[4]), o[0]);
    var first := {o[5], o[4], o[0]};
    assert forall x :: x in r3 <==> x in first;
    assert o[1].key != o[2].key && o[1].key != o[3].key && o[2].key != o[3].key;
    forall x | x in first ensures x.key != o[1].key && x.key != o[2].key && x.key != o[3].key {
      assert x == o[5] || x == o[4] || x == o[0];
      assert forall i :: 1 <= i <= 3 ==> o[0].key != o[i].key && o[i].key != o[4].key && o[i].key != o[5].key;
    }
    AddThree(r3, o[1], o[2], o[3], first);
    var r6 := Add(Add(Add(r3, o[1]), o[2]), o[3]);
    DeterminedBySix(r6, o);
  }

  lemma PriorityTestKeysDistinct(defaultPriority: int)
    ensures var o := PriorityTestOrder(defaultPriority);
            forall i, j :: 0 <= i < j < 6 ==> o[i].key != o[j].key
  {
    var o := PriorityTestOrder(defaultPriority);
    assert |o[0].key| == 60 && |o[4].key| == 60 && |o[5].key| == 51;
    assert o[0].key[50] == 'N' && o[4].key[50] == 'P';
  }

  lemma PriorityTestSorted(defaultPriority: int)
    requires defaultPriority < 1
    ensures StrictlySorted(PriorityTestOrder(defaultPriority))
  {
  }

  /** Adding the environment-info plugin, the priority-11 plugin, the
      unannotated plugin and the three inline plugins, in that order, to an
      empty registry enumerates them as: unannotated, version, version2,
      version3, priority 11, environment info. */
  lemma PriorityOrderOfTest(defaultPriority: int)
    requires defaultPriority < 1
    ensures var o := PriorityTestOrder(defaultPriority);
            Add(Add(Add(Add(Add(Add([], o[5]), o[4]), o[0]), o[1]), o[2]), o[3]) == o
  {
    PriorityTestKeysDistinct(defaultPriority);
    PriorityTestSorted(defaultPriority);
    AddedInTestOrder(PriorityTestOrder(defaultPriority));
  }

  /** The two inline plugins of the cancellation test come out in priority
      order. */
  lemma CancelTestOrder()
    ensures var cancel := Registration("cancel", 1, Inline(CancelEvent));
            var addTag := Registration("add-tag", 2, Inline(AddTag("Was Not Canceled")));
            Add(Add([], cancel), addTag) == [cancel, addTag]
  {
    var cancel := Registration("cancel", 1, Inline(CancelEvent));
    var addTag := Registration("add-tag", 2, Inline(AddTag("Was Not Canceled")));
    var r := Add(Add([], cancel), addTag);
    assert forall x :: x in r <==> x in [cancel, addTag];
    OrderedIsDetermined(r, [cancel, addTag]);
  }
}
