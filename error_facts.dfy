/** What the error plugins promise: a second run on the same exception
    instance is discarded, the marker lands exactly in dictionaries whose key
    type admits a string key, the root error data holds the copied `Data`
    entries plus the extra properties, and excluded properties stay out. */
module ErrorFacts {
  import opened Models
  import opened Wildcard
  import opened Exceptions
  import opened Pipeline

  // ---------------------------------------------------------------------
  // Exclusion lists without wildcards

  /** Every pattern is a plain name without `*` at either end. */
  predicate AllExact(ps: seq<string>) {
    forall i :: 0 <= i < |ps| ==> ps[i] != [] && ps[i][0] != '*' && ps[i][|ps[i]| - 1] != '*'
  }

  /** A list of plain names excludes exactly the values equal, ignoring case,
      to one of them. */
  lemma ExactListIff(value: string, ps: seq<string>)
    requires AllExact(ps)
    ensures AnyWildcardMatches(value, ps) <==> exists i :: 0 <= i < |ps| && Lower(value) == Lower(ps[i])
  {
    forall i | 0 <= i < |ps| ensures IsPatternMatch(value, ps[i]) <==> Lower(value) == Lower(ps[i]) {
      ExactMatchIff(value, ps[i]);
    }
  }

  lemma StandardExclusionsAreExact()
    ensures AllExact(ExceptionExclusions)
  {
  }

  /** A value whose folded text differs from the folded text of every name in
      a plain list is not excluded by that list. */
  lemma NotExcluded(value: string, ps: seq<string>)
    requires AllExact(ps)
    requires forall i :: 0 <= i < |ps| ==> Lower(value) != Lower(ps[i])
    ensures !AnyWildcardMatches(value, ps)
  {
    ExactListIff(value, ps);
  }

  // ---------------------------------------------------------------------
  // Discarding duplicates

  /** Running an error plugin twice on the same exception instance: the
      first run builds the error and marks the dictionary, the second sees
      the marker and cancels without adding an error. */
  lemma {:induction false} DuplicateIsCancelled(key: string, env: Env, w: World, e: Exn, t: EventType)
    requires DataOf(w.dicts, e).Some? && CanMarkProcessed(DataOf(w.dicts, e).value)
    requires !IsProcessed(DataOf(w.dicts, e))
    ensures var first := ErrorStep(key, env, State(Ctx(NewEvent(t), false, Some(e)), w));
            && !first.ctx.cancel && key in first.ctx.ev.data
            && var second := ErrorStep(key, env, State(Ctx(NewEvent(t), false, Some(e)), first.world));
               second.ctx.cancel && second.ctx.ev.data == map[]
  {
    var first := ErrorStep(key, env, State(Ctx(NewEvent(t), false, Some(e)), w));
    assert DataOf(first.world.dicts, e) == MarkProcessed(DataOf(w.dicts, e));
  }

  /** A dictionary whose key type admits no string key is never marked, so
      the same instance is processed again. */
  lemma {:induction false} UnmarkableIsProcessedAgain(key: string, env: Env, w: World, e: Exn, t: EventType)
    requires DataOf(w.dicts, e).Some? && !CanMarkProcessed(DataOf(w.dicts, e).value)
    requires !IsProcessed(DataOf(w.dicts, e))
    ensures var first := ErrorStep(key, env, State(Ctx(NewEvent(t), false, Some(e)), w));
            var second := ErrorStep(key, env, State(Ctx(NewEvent(t), false, Some(e)), first.world));
            !second.ctx.cancel && key in second.ctx.ev.data
  {
    var first := ErrorStep(key, env, State(Ctx(NewEvent(t), false, Some(e)), w));
    assert DataOf(first.world.dicts, e) == MarkProcessed(DataOf(w.dicts, e));
  }

  // ---------------------------------------------------------------------
  // The test exception type

  /** The public properties of the test exception type: two text properties
      and the dictionary its `Data` returns. */
  function TestProperties(ignored: Option<Value>, random: Option<Value>, data: Option<Value>): seq<Property> {
    [Property("IgnoredProperty", ignored), Property("RandomValue", random), Property("SetsDataProperty", data)]
  }

  lemma PropertyNamesNotStandard()
    ensures !AnyWildcardMatches("IgnoredProperty", ExceptionExclusions)
    ensures !AnyWildcardMatches("RandomValue", ExceptionExclusions)
    ensures !AnyWildcardMatches("SetsDataProperty", ExceptionExclusions)
  {
    StandardExclusionsAreExact();
    IgnoredPropertyNotStandard();
    NotExcluded("RandomValue", ExceptionExclusions);
    SetsDataPropertyNotStandard();
  }

  lemma IgnoredPropertyNotStandard()
    requires AllExact(ExceptionExclusions)
    ensures !AnyWildcardMatches("IgnoredProperty", ExceptionExclusions)
  {
    assert Lower("IgnoredProperty")[1] == 'g';
    NotExcluded("IgnoredProperty", ExceptionExclusions);
  }

  lemma SetsDataPropertyNotStandard()
    requires AllExact(ExceptionExclusions)
    ensures !AnyWildcardMatches("SetsDataProperty", ExceptionExclusions)
  {
    assert Lower("SetsDataProperty")[0] == 's';
    NotExcluded("SetsDataProperty", ExceptionExclusions);
  }

  /** Excluding `SetsDataProperty` and leaving both text properties null
      projects nothing. */
  lemma NothingProjected(data: Option<Value>)
    ensures ExtraFields(TestProperties(None, None, data), ExceptionExclusions + ["SetsDataProperty"]) == []
  {
    var all := ExceptionExclusions + ["SetsDataProperty"];
    assert all[17] == "SetsDataProperty";
    ExactMatchIff("SetsDataProperty", "SetsDataProperty");
    assert AnyWildcardMatches("SetsDataProperty", all);
    var props := TestProperties(None, None, data);
    assert !Projects(props[2], all);
    assert ExtraFields([props[2]], all) == [];
    assert props[1..] == [props[1], props[2]] && props[1..][1..] == [props[2]];
    assert ExtraFields(props[1..], all) == [];
  }

  /** Running an error plugin on the test exception whose `Data` is a
      one-entry dictionary of key type `kt` (or null), with `SetsDataProperty`
      excluded: the run is not cancelled, the dictionary is marked exactly
      when its key type admits a string key, and the root error data holds
      exactly the one entry (none for a null dictionary). */
  lemma {:induction false} DictionaryKinds(key: string, env: Env, w: World, e: Exn, t: EventType)
    requires env.dataExclusions == ["SetsDataProperty"]
    requires e.properties == TestProperties(None, None, if e.id in w.dicts then Some(Opaque("Data")) else None)
    requires e.id in w.dicts ==> exists k, v :: w.dicts[e.id].entries == map[k := Some(v)]
                                   && k != "" && !AnyWildcardMatches(k, ExceptionExclusions + env.dataExclusions)
    ensures var r := ErrorStep(key, env, State(Ctx(NewEvent(t), false, Some(e)), w));
            && !r.ctx.cancel
            && (IsProcessed(DataOf(r.world.dicts, e)) <==> e.id in w.dicts && CanMarkProcessed(w.dicts[e.id]))
            && key in r.ctx.ev.data && r.ctx.ev.data[key].ErrorPayload?
            && |r.ctx.ev.data[key].error.data| == (if e.id in w.dicts then 1 else 0)
  {
    var all := ExceptionExclusions + env.dataExclusions;
    NothingProjected(if e.id in w.dicts then Some(Opaque("Data")) else None);
    var copied := CopyData(DataOf(w.dicts, e), all);
    if e.id in w.dicts {
      var k, v :| w.dicts[e.id].entries == map[k := Some(v)] && k != "" && !AnyWildcardMatches(k, all);
      assert all[0] == MarkerKey;
      ExactMatchIff(MarkerKey, MarkerKey);
      assert k != MarkerKey;
      assert copied.Keys == {k};
    }
  }

  /** The string-keyed instance of the table of dictionary kinds: key
      `test` is not a standard exclusion. */
  lemma TestKeyIsCopied()
    ensures "test" != "" && !AnyWildcardMatches("test", ExceptionExclusions + ["SetsDataProperty"])
  {
    var all := ExceptionExclusions + ["SetsDataProperty"];
    assert AllExact(all);
    assert Lower("test")[0] == 't';
    NotExcluded("test", all);
  }

  // ---------------------------------------------------------------------
  // Copying data into the root error

  /** When every entry of the dictionary is copyable, the copy has exactly
      its keys. */
  lemma CopyKeepsAll(d: DataDict, exclusions: seq<string>)
    requires forall k :: k in d.entries ==> Copies(d, k, exclusions)
    ensures CopyData(Some(d), exclusions).Keys == d.entries.Keys
  {
  }

  /** The four-entry dictionary of the copying test: keys `1`, `test`, a
      GUID's text and `False`, each with the name of its key's type. */
  function FourEntries(guid: string): DataDict {
    DataDict(ObjectKey, map["1" := Some(Text("Int32")), "test" := Some(Text("String")),
                            guid := Some(Text("Guid")), "False" := Some(Text("Boolean"))])
  }

  /** No standard exclusion has length 1 or more than 16. */
  lemma OddLengthNotStandard(value: string)
    requires |value| == 1 || |value| > 16
    ensures !AnyWildcardMatches(value, ExceptionExclusions)
  {
    StandardExclusionsAreExact();
    forall i | 0 <= i < |ExceptionExclusions| ensures Lower(value) != Lower(ExceptionExclusions[i]) {
      assert 1 < |ExceptionExclusions[i]| <= 16;
    }
    NotExcluded(value, ExceptionExclusions);
  }

  lemma TestAndFalseNotStandard()
    ensures !AnyWildcardMatches("test", ExceptionExclusions)
    ensures !AnyWildcardMatches("False", ExceptionExclusions)
  {
    StandardExclusionsAreExact();
    assert Lower("test")[0] == 't';
    assert Lower("False")[0] == 'f';
    NotExcluded("test", ExceptionExclusions);
    NotExcluded("False", ExceptionExclusions);
  }

  lemma {:induction false} FourEntriesCopied(guid: string)
    requires |guid| == 36
    ensures |CopyData(Some(FourEntries(guid)), ExceptionExclusions)| == 4
    ensures ExtraPropertiesKey !in CopyData(Some(FourEntries(guid)), ExceptionExclusions)
  {
    var d := FourEntries(guid);
    OddLengthNotStandard("1");
    OddLengthNotStandard(guid);
    TestAndFalseNotStandard();
    CopyKeepsAll(d, ExceptionExclusions);
    var copied := CopyData(Some(d), ExceptionExclusions);
    assert copied.Keys == {"1", "test", guid, "False"};
  }

  lemma RandomValueProjected()
    ensures ExtraFields(TestProperties(None, Some(Text("Test")), Some(Opaque("Data"))), ExceptionExclusions) != []
  {
    var props := TestProperties(None, Some(Text("Test")), Some(Opaque("Data")));
    PropertyNamesNotStandard();
    assert props[1] in props && Projects(props[1], ExceptionExclusions);
  }

  /** The root error of the test exception with the four-entry `Data`
      dictionary and one text property set has five data entries: the four
      copies and the extra properties. */
  lemma {:induction false} CopiesIntoRootError(key: string, env: Env, w: World, e: Exn, t: EventType, guid: string)
    requires env.dataExclusions == [] && |guid| == 36
    requires e.properties == TestProperties(None, Some(Text("Test")), Some(Opaque("Data")))
    requires e.id in w.dicts && w.dicts[e.id] == FourEntries(guid)
    ensures var r := ErrorStep(key, env, State(Ctx(NewEvent(t), false, Some(e)), w));
            && !r.ctx.cancel && IsProcessed(DataOf(r.world.dicts, e))
            && key in r.ctx.ev.data && r.ctx.ev.data[key].ErrorPayload?
            && |r.ctx.ev.data[key].error.data| == 5
  {
    assert ExceptionExclusions + env.dataExclusions == ExceptionExclusions;
    assert !IsProcessed(DataOf(w.dicts, e));
    FourEntriesCopied(guid);
    RandomValueProjected();
  }

  // ---------------------------------------------------------------------
  // Property names and exclusions

  /** A run of characters without upper-case letters is kept as it is. */
  lemma {:induction false} SnakeKeepsLowerRun(name: string, i: nat, j: nat)
    requires i <= j <= |name|
    requires forall m :: i <= m < j ==> !IsUpper(name[m])
    ensures SnakeFrom(name, i) == name[i..j] + SnakeFrom(name, j)
    decreases j - i
  {
    if i < j {
      SnakeKeepsLowerRun(name, i + 1, j);
      assert name[i..j] == [name[i]] + name[i + 1..j];
    }
  }

  /** A name made of two capitalised words becomes the two words in lower
      case joined by an underscore. */
  lemma {:induction false} SnakeOfTwoWords(first: char, rest1: string, second: char, rest2: string)
    requires IsUpper(first) && IsUpper(second) && rest1 != [] && rest1[|rest1| - 1] != '_'
    requires forall m :: 0 <= m < |rest1| ==> !IsUpper(rest1[m])
    requires forall m :: 0 <= m < |rest2| ==> !IsUpper(rest2[m])
    ensures SnakeCase([first] + rest1 + [second] + rest2)
         == [LowerChar(first)] + rest1 + ['_', LowerChar(second)] + rest2
  {
    var name := [first] + rest1 + [second] + rest2;
    var k := |rest1| + 1;
    assert name[1..k] == rest1 && name[k + 1..] == rest2 && name[k] == second;
    SnakeKeepsLowerRun(name, k + 1, |name|);
    assert name[k + 1..|name|] == rest2;
    SnakeKeepsLowerRun(name, 1, k);
  }

  lemma SnakeCaseOfIgnoredProperty()
    ensures SnakeCase("IgnoredProperty") == "ignored_property"
  {
    SnakeOfTwoWords('I', "gnored", 'P', "roperty");
    assert "IgnoredProperty" == ['I'] + "gnored" + ['P'] + "roperty";
    assert ['i'] + "gnored" + ['_', 'p'] + "roperty" == "ignored_property";
  }

  lemma SnakeCaseOfRandomValue()
    ensures SnakeCase("RandomValue") == "random_value"
  {
    SnakeOfTwoWords('R', "andom", 'V', "alue");
    assert "RandomValue" == ['R'] + "andom" + ['V'] + "alue";
    assert ['r'] + "andom" + ['_', 'v'] + "alue" == "random_value";
  }

  /** `Ignore*` added to the standard exclusions excludes `IgnoredProperty`
      and not `RandomValue`. */
  lemma IgnorePatternOnTestProperties()
    ensures AnyWildcardMatches("IgnoredProperty", ExceptionExclusions + ["Ignore*"])
    ensures !AnyWildcardMatches("RandomValue", ExceptionExclusions + ["Ignore*"])
  {
    var all := ExceptionExclusions + ["Ignore*"];
    assert all[17] == "Ignore*";
    assert "Ignore" + "*" == "Ignore*";
    PrefixMatchIff("IgnoredProperty", "Ignore");
    PrefixMatchIff("RandomValue", "Ignore");
    assert Lower("IgnoredProperty")[..6] == Lower("Ignore");
    assert IsPatternMatch("IgnoredProperty", all[17]);
    assert Lower("RandomValue")[0] == 'r';
    assert !IsPatternMatch("RandomValue", all[17]);
    PropertyNamesNotStandard();
    forall i | 0 <= i < 17 ensures all[i] == ExceptionExclusions[i] {
    }
  }

  /** Projection works property by property, keeping declaration order. */
  lemma ExtraFieldsCons(p: Property, rest: seq<Property>, exclusions: seq<string>)
    ensures ExtraFields([p] + rest, exclusions)
         == (if Projects(p, exclusions) then [(SnakeCase(p.name), p.value.value)] else []) + ExtraFields(rest, exclusions)
  {
    assert ([p] + rest)[1..] == rest;
  }

  /** The extra properties of the test exception with both text properties
      set and a null `Data`: both names in snake_case, in declaration order. */
  lemma ExtraPropertiesInOrder()
    ensures ExtraFields(TestProperties(Some(Text("Test")), Some(Text("Test")), None), ExceptionExclusions)
         == [("ignored_property", Text("Test")), ("random_value", Text("Test"))]
  {
    var props := TestProperties(Some(Text("Test")), Some(Text("Test")), None);
    assert props[1..] == [props[1], props[2]];
    RandomValueThenNull();
    PropertyNamesNotStandard();
    SnakeCaseOfIgnoredProperty();
    assert Projects(props[0], ExceptionExclusions);
  }

  /** The last two test properties, the second one null, project to
      `random_value` alone. */
  lemma RandomValueThenNull()
    ensures ExtraFields([Property("RandomValue", Some(Text("Test"))), Property("SetsDataProperty", None)], ExceptionExclusions)
         == [("random_value", Text("Test"))]
  {
    var p1, p2 := Property("RandomValue", Some(Text("Test"))), Property("SetsDataProperty", None);
    ExtraFieldsCons(p2, [], ExceptionExclusions);
    assert [p2] + [] == [p2];
    ExtraFieldsCons(p1, [p2], ExceptionExclusions);
    assert [p1] + [p2] == [p1, p2];
    PropertyNamesNotStandard();
    SnakeCaseOfRandomValue();
  }

  /** With `Ignore*` excluded only `random_value` remains. */
  lemma ExtraPropertiesHonourIgnorePattern()
    ensures ExtraFields(TestProperties(Some(Text("Test")), Some(Text("Test")), None), ExceptionExclusions + ["Ignore*"])
         == [("random_value", Text("Test"))]
  {
    var props := TestProperties(Some(Text("Test")), Some(Text("Test")), None);
    var all := ExceptionExclusions + ["Ignore*"];
    IgnorePatternOnTestProperties();
    SnakeCaseOfRandomValue();
    assert ExtraFields([props[2]], all) == [];
    assert props[1..] == [props[1], props[2]] && props[1..][1..] == [props[2]];
    assert ExtraFields(props[1..], all) == [("random_value", Text("Test"))];
  }

  /** The same on the error record an error plugin builds: the extra
      properties entry carries both fields, and only `random_value` once
      `Ignore*` is excluded. */
  lemma {:induction false} IgnoredPropertiesLeaveRecord(key: string, env: Env, w: World, e: Exn, t: EventType)
    requires e.properties == TestProperties(Some(Text("Test")), Some(Text("Test")), None)
    requires e.id !in w.dicts && (env.dataExclusions == [] || env.dataExclusions == ["Ignore*"])
    ensures var r := ErrorStep(key, env, State(Ctx(NewEvent(t), false, Some(e)), w));
            && !r.ctx.cancel && key in r.ctx.ev.data && r.ctx.ev.data[key].ErrorPayload?
            && var data := r.ctx.ev.data[key].error.data;
               ExtraPropertiesKey in data
               && data[ExtraPropertiesKey] == ExtraProperties(
                    if env.dataExclusions == [] then [("ignored_property", Text("Test")), ("random_value", Text("Test"))]
                    else [("random_value", Text("Test"))])
  {
    assert ExceptionExclusions + [] == ExceptionExclusions;
    ExtraPropertiesInOrder();
    ExtraPropertiesHonourIgnorePattern();
  }
}
