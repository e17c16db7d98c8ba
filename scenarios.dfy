/** The plugin test scenarios, driven through the client objects: each method
    builds a fresh client or configuration, performs the calls the scenario
    makes in the same order, and promises what the scenario asserts. */
module Scenarios {
  import opened Models
  import opened Wildcard
  import opened Exceptions
  import opened Registry
  import opened Rules
  import opened Pipeline
  import opened PipelineFacts
  import opened ErrorFacts
  import opened RegistryFacts
  import opened Client

  /** A new configuration, seen without its default registrations: the
      scenarios that start by removing every plugin only need it
      well-formed, with nothing constructed and no settings. */
  method NewConfiguration() returns (config: ExceptionlessConfiguration)
    ensures fresh(config) && config.Valid()
    ensures config.constructed == {} && config.counters == Counters(0, 0, 0)
    ensures config.Settings() == Options({}, map[], [], [])
  {
    config := new ExceptionlessConfiguration();
  }

  /** A new client, seen the same way. */
  method NewClient(configured: bool, machineUser: string, environment: nat) returns (client: ExceptionlessClient)
    ensures fresh(client) && fresh(client.configuration) && client.Valid()
    ensures client.configuration.constructed == {} && client.configuration.counters == Counters(0, 0, 0)
    ensures client.configuration.Settings() == Options({}, map[], [], [])
    ensures client.configured == configured && client.machineUser == machineUser && client.environment == environment
    ensures client.exceptionData == map[] && client.queue == [] && client.delivered == []
  {
    client := new ExceptionlessClient(configured, machineUser, environment);
  }

  /** Registering the environment-info plugin, the priority-11 plugin, the
      unannotated plugin and three inline plugins at 1, 2 and 3 into an
      emptied configuration enumerates: unannotated, "version", "version2",
      "version3", priority 11, environment info. */
  method VerifyPriority() returns (plugins: seq<Registration>)
    ensures plugins == PriorityTestOrder(DefaultPriority)
  {
    var config := NewConfiguration();
    config.RemoveAllPlugins();
    ghost var o := PriorityTestOrder(DefaultPriority);
    config.AddPluginType(EnvironmentInfoPlugin);
    assert config.registrations == Add([], o[5]);
    config.AddPluginType(PluginWithPriority11);
    assert config.registrations == Add(Add([], o[5]), o[4]);
    config.AddPluginType(PluginWithNoPriority);
    config.AddPlugin(Registration("version", 1, Inline(SetVersion("1.0.0.0"))));
    config.AddPlugin(Registration("version2", 2, Inline(SetVersion("1.0.0.0"))));
    config.AddPlugin(Registration("version3", 3, Inline(SetVersion("1.0.0.0"))));
    assert config.registrations == Add(Add(Add(Add(Add(Add([], o[5]), o[4]), o[0]), o[1]), o[2]), o[3]);
    PriorityOrderOfTest(DefaultPriority);
    plugins := config.registrations;
  }

  /** With only an inline plugin that cancels (priority 1) and one that adds a
      tag (priority 2), running the pipeline cancels the event and the tag is
      never added. */
  method CanCancel() returns (cancelled: bool, tagCount: nat)
    ensures cancelled && tagCount == 0
  {
    var client := NewClient(false, "", 0);
    client.configuration.RemoveAllPlugins();
    var cancel := Registration("cancel", 1, Inline(CancelEvent));
    var addTag := Registration("add-tag", 2, Inline(AddTag("Was Not Canceled")));
    client.configuration.AddPlugin(cancel);
    client.configuration.AddPlugin(addTag);
    CancelTestOrder();
    var ctx := new EventPluginContext(NewEvent(Untyped));
    ghost var env := client.Environment();
    ghost var s0 := client.StateOf(ctx);
    client.Run(ctx);
    CancelSkipsLaterPlugins(env, s0);
    cancelled := ctx.cancel;
    tagCount := |ctx.ev.tags|;
  }

  /** Registering and removing a plugin whose constructor throws never
      constructs it: nothing is left registered and no instance exists. */
  method LazyLoadAndRemovePlugin() returns (registered: seq<Registration>, constructed: set<string>)
    ensures registered == [] && constructed == {}
  {
    var config := NewConfiguration();
    config.RemoveAllPlugins();
    ghost var p := config.PluginsState();
    config.AddPluginType(ThrowIfInitializedTestPlugin);
    config.RemovePluginType(ThrowIfInitializedTestPlugin);
    AddThenRemoveIsInert(p, ThrowIfInitializedTestPlugin, DefaultPriority);
    registered := config.registrations;
    constructed := config.constructed;
  }

  /** One round of the lifecycle scenario: every registered plugin is
      obtained and run on a new context. */
  method RunEveryPlugin(client: ExceptionlessClient, reg: Registration)
    requires client.Valid() && client.configuration.registrations == [reg]
    requires reg.target == Typed(CounterTestPlugin)
    modifies client, client.configuration
    ensures client.Valid() && client.configuration.registrations == [reg]
    ensures client.configuration.constructed == old(client.configuration.constructed) + {reg.key}
    ensures var c := old(client.configuration.counters);
            client.configuration.counters ==
              Counters(c.constructed + (if reg.key in old(client.configuration.constructed) then 0 else 1), c.runs + 1, c.disposed)
  {
    var plugins := client.configuration.registrations;
    for j := 0 to |plugins|
      invariant client.Valid() && client.configuration.registrations == plugins
      invariant client.configuration.constructed == old(client.configuration.constructed) + (if j == 0 then {} else {reg.key})
      invariant var c := old(client.configuration.counters);
                client.configuration.counters ==
                  if j == 0 then c
                  else Counters(c.constructed + (if reg.key in old(client.configuration.constructed) then 0 else 1), c.runs + 1, c.disposed)
    {
      var ctx := new EventPluginContext(NewEvent(Untyped));
      ghost var env := client.Environment();
      ghost var s := client.StateOf(ctx);
      var ran := client.RunRegistration(ctx, plugins[j]);
      CounterStep(env, plugins[j], s);
    }
  }

  /** Registering the counting plugin twice, running every registered plugin
      in two rounds and removing the plugin twice constructs it once, runs it
      twice and disposes it once. */
  method CanDisposePlugin() returns (counters: Counters)
    ensures counters == Counters(1, 2, 1)
  {
    var client := NewClient(false, "", 0);
    var config := client.configuration;
    config.RemoveAllPlugins();
    var reg := TypeRegistration(CounterTestPlugin, DefaultPriority);
    config.AddPluginType(CounterTestPlugin);
    config.AddPluginType(CounterTestPlugin);
    OrderedIsDetermined(config.registrations, [reg]);
    var round := 0;
    while round < 2
      invariant 0 <= round <= 2 && client.Valid() && client.configuration == config
      invariant config.registrations == [reg]
      invariant config.constructed == if round == 0 then {} else {reg.key}
      invariant config.counters == Counters(if round == 0 then 0 else 1, round, 0)
    {
      RunEveryPlugin(client, reg);
      round := round + 1;
    }
    assert Find(config.registrations, reg.key) == Some(reg);
    config.RemovePluginType(CounterTestPlugin);
    config.RemovePluginType(CounterTestPlugin);
    counters := config.counters;
  }

  /** With every plugin removed an error event gets no reference id; once
      reference ids are enabled it gets one. */
  method ShouldUseReferenceIds() returns (before: Option<ReferenceId>, after: Option<ReferenceId>)
    ensures before.None? && after.Some?
  {
    var client := NewClient(false, "", 0);
    client.configuration.RemoveAllPlugins();
    var ctx := new EventPluginContext(NewEvent(Error));
    client.Run(ctx);
    before := ctx.ev.referenceId;
    client.configuration.UseReferenceIds();
    var reg := TypeRegistration(ReferenceIdPlugin, DefaultPriority);
    OrderedIsDetermined(client.configuration.registrations, [reg]);
    ctx := new EventPluginContext(NewEvent(Error));
    ghost var env := client.Environment();
    ghost var s0 := client.StateOf(ctx);
    client.Run(ctx);
    ReferenceIdOnlyWhenEnabled(env, s0);
    after := ctx.ev.referenceId;
  }

  /** `ConfigurationDefaultsPlugin.Run` on the context. */
  method RunDefaults(client: ExceptionlessClient, ctx: EventPluginContext)
    requires client.Valid()
    modifies client, client.configuration, ctx
    ensures client.Valid() && client.configuration.Settings() == old(client.configuration.Settings())
    ensures ctx.cancel == old(ctx.cancel)
    ensures var o := client.configuration.Settings();
            ctx.ev == ApplyDefaults(old(ctx.ev), o.defaultTags, o.defaultData, o.dataExclusions)
  {
    ghost var env := client.Environment();
    ghost var s := client.StateOf(ctx);
    client.RunPlugin(ctx, ConfigurationDefaultsPlugin);
    DefaultsPluginStep(env, s);
  }

  /** `IgnoreUserAgentPlugin.Run` on the context. */
  method RunBotFilter(client: ExceptionlessClient, ctx: EventPluginContext)
    requires client.Valid()
    modifies client, client.configuration, ctx
    ensures client.Valid() && client.configuration.Settings() == old(client.configuration.Settings())
    ensures ctx.cancel == (old(ctx.cancel) || IsBotRequest(old(ctx.ev), client.configuration.botPatterns))
  {
    ghost var env := client.Environment();
    ghost var s := client.StateOf(ctx);
    client.RunPlugin(ctx, IgnoreUserAgentPlugin);
    BotFilterStep(env, s);
  }

  /** The events of the no-duplicates scenario: no defaults change nothing,
      the default tag is added once, and the default entry is added once. */
  lemma NoDuplicatesEvents(awesome: Value)
    ensures ApplyDefaults(NewEvent(Untyped), {}, map[], []) == NewEvent(Untyped)
    ensures ApplyDefaults(NewEvent(Untyped), {"Critical"}, map[], []) == NewEvent(Untyped).(tags := {"Critical"})
    ensures var tagged := NewEvent(Untyped).(tags := {"Critical"});
            var once := ApplyDefaults(tagged, {"Critical"}, map["Message" := awesome], []);
            once.tags == {"Critical"} && once.data == map["Message" := awesome]
            && |once.tags| == 1 && |once.data| == 1
            && ApplyDefaults(once, {"Critical"}, map["Message" := awesome], []) == once
  {
    var tagged := NewEvent(Untyped).(tags := {"Critical"});
    TagsOnlyDefaults(NewEvent(Untyped), {}, []);
    TagsOnlyDefaults(NewEvent(Untyped), {"Critical"}, []);
    assert !AnyWildcardMatches("Message", []);
    OneDefaultEntry(tagged, {"Critical"}, "Message", awesome, []);
    DefaultsIdempotent(tagged, {"Critical"}, map["Message" := awesome], []);
  }

  /** The loop of the no-duplicates scenario: with the default tag and the
      default entry configured, two more runs each leave one tag and one
      data entry. */
  method RunDefaultsTwice(client: ExceptionlessClient, ctx: EventPluginContext, awesome: Value)
      returns (counts: seq<(nat, nat)>)
    requires client.Valid()
    requires client.configuration.Settings() == Options({"Critical"}, map["Message" := awesome], [], [])
    requires ctx.ev == NewEvent(Untyped).(tags := {"Critical"})
    modifies client, client.configuration, ctx
    ensures counts == [(1, 1), (1, 1)]
  {
    NoDuplicatesEvents(awesome);
    ghost var tagged := NewEvent(Untyped).(tags := {"Critical"});
    ghost var once := ApplyDefaults(tagged, {"Critical"}, map["Message" := awesome], []);
    counts := [];
    for index := 0 to 2
      invariant client.Valid()
      invariant client.configuration.Settings() == Options({"Critical"}, map["Message" := awesome], [], [])
      invariant ctx.ev == if index == 0 then tagged else once
      invariant |counts| == index && forall m :: 0 <= m < index ==> counts[m] == (1, 1)
    {
      RunDefaults(client, ctx);
      counts := counts + [(|ctx.ev.tags|, |ctx.ev.data|)];
    }
    assert counts[0] == (1, 1) && counts[1] == (1, 1);
  }

  /** The first two runs of the no-duplicates scenario: without defaults the
      event stays empty; after the default tag "Critical" it has that tag
      and no data. */
  method RunDefaultsPlainThenTagged(client: ExceptionlessClient, ctx: EventPluginContext)
      returns (plain: (nat, nat), tagged: (nat, nat))
    requires client.Valid() && client.configuration.Settings() == Options({}, map[], [], [])
    requires ctx.ev == NewEvent(Untyped)
    modifies client, client.configuration, ctx
    ensures client.Valid() && client.configuration.Settings() == Options({"Critical"}, map[], [], [])
    ensures ctx.ev == NewEvent(Untyped).(tags := {"Critical"})
    ensures plain == (0, 0) && tagged == (1, 0)
  {
    TagsOnlyDefaults(NewEvent(Untyped), {}, []);
    TagsOnlyDefaults(NewEvent(Untyped), {"Critical"}, []);
    RunDefaults(client, ctx);
    plain := (|ctx.ev.tags|, |ctx.ev.data|);
    client.configuration.AddDefaultTag("Critical");
    RunDefaults(client, ctx);
    tagged := (|ctx.ev.tags|, |ctx.ev.data|);
  }

  /** The defaults plugin on a client with no defaults adds nothing; after a
      default tag it adds that tag once; after a default data entry, running
      it twice more leaves exactly one tag and one data entry. */
  method ConfigurationDefaultsNoDuplicates() returns (counts: seq<(nat, nat)>)
    ensures counts == [(0, 0), (1, 0), (1, 1), (1, 1)]
  {
    var awesome := Opaque("new { Exceptionless = Is Awesome! }");
    var client := NewClient(false, "", 0);
    var ctx := new EventPluginContext(NewEvent(Untyped));
    var plain, tagged := RunDefaultsPlainThenTagged(client, ctx);
    client.configuration.AddDefaultData("Message", awesome);
    var repeated := RunDefaultsTwice(client, ctx, awesome);
    counts := [plain, tagged] + repeated;
  }

  /** A default data entry is copied onto the event; once "Ignore*" is a data
      exclusion a default entry named "Ignored" is not, and the event keeps
      only the first entry. */
  method ConfigurationDefaultsIgnoredProperties() returns (first: map<string, Value>, second: map<string, Value>)
    ensures first == map["Message" := Text("Test")]
    ensures second == map["Message" := Text("Test")]
  {
    var client := NewClient(false, "", 0);
    client.configuration.AddDefaultData("Message", Text("Test"));
    var ctx := new EventPluginContext(NewEvent(Untyped));
    assert !AnyWildcardMatches("Message", []);
    OneDefaultEntry(ctx.ev, {}, "Message", Text("Test"), []);
    RunDefaults(client, ctx);
    first := ctx.ev.data;
    client.configuration.AddDataExclusions(["Ignore*"]);
    client.configuration.AddDefaultData("Ignored", Text("Test"));
    assert client.configuration.dataExclusions == ["Ignore*"];
    IgnorePatternExcludesIgnored();
    NothingNewFromDefaults(ctx.ev, {}, map["Message" := Text("Test"), "Ignored" := Text("Test")], ["Ignore*"]);
    RunDefaults(client, ctx);
    second := ctx.ev.data;
  }

  /** With the bot pattern "*Bot*" an event without request info and one from
      Safari pass, and one from the Bing crawler is cancelled. */
  method IgnoreUserAgentDiscardBot() returns (plain: bool, safari: bool, bing: bool)
    ensures !plain && !safari && bing
  {
    var client := NewClient(false, "", 0);
    client.configuration.AddUserAgentBotPatterns(["*Bot*"]);
    assert client.configuration.botPatterns == ["*Bot*"];
    var ev := NewEvent(Untyped);
    var ctx := new EventPluginContext(ev);
    RunBotFilter(client, ctx);
    plain := ctx.cancel;
    KnownAgentsAsRequests(ev);
    ev := AddRequestInfo(ev, RequestInfo(Some(SafariUserAgent)));
    ctx := new EventPluginContext(ev);
    RunBotFilter(client, ctx);
    safari := ctx.cancel;
    KnownAgentsAsRequests(ev);
    ev := AddRequestInfo(ev, RequestInfo(Some(BingUserAgent)));
    ctx := new EventPluginContext(ev);
    RunBotFilter(client, ctx);
    bing := ctx.cancel;
  }

  /** The environment-info plugin on a new session event leaves exactly one
      data entry, the environment info. */
  method EnvironmentInfoShouldAddSessionStart() returns (data: map<string, Value>)
    ensures |data| == 1 && EnvironmentKey in data
  {
    var client := NewClient(false, "", 0);
    var ctx := new EventPluginContext(NewEvent(Session));
    client.RunPlugin(ctx, EnvironmentInfoPlugin);
    EnvironmentInfoOnNewEvent(Session, 0);
    data := ctx.ev.data;
  }

  /** A log event without user info gets the machine user as identity. */
  method PrivateInformationWillSetIdentity(machineUser: string) returns (user: Option<UserInfo>)
    requires machineUser != ""
    ensures user.Some? && user.value.identity == Some(machineUser)
  {
    var client := NewClient(false, machineUser, 0);
    var ctx := new EventPluginContext(NewEvent(Log).(message := Some("test")));
    client.RunPlugin(ctx, SetEnvironmentUserPlugin);
    user := GetUserIdentity(ctx.ev);
  }

  /** User info that carries only a name is left alone: no identity, and the
      name "Blake". */
  method PrivateInformationWillNotUpdateIdentity(machineUser: string) returns (user: Option<UserInfo>)
    ensures user == Some(UserInfo(None, Some("Blake")))
  {
    var client := NewClient(false, machineUser, 0);
    var ev := SetUserIdentity(NewEvent(Log).(message := Some("test")), UserInfo(None, Some("Blake")));
    var ctx := new EventPluginContext(ev);
    client.RunPlugin(ctx, SetEnvironmentUserPlugin);
    user := GetUserIdentity(ctx.ev);
  }

  /** The session check cancels an event of type `t` carrying only the
      identity `identity` exactly when `t` is a session type and the identity
      is null or empty. */
  method CancelSessionsWithNoUser(t: EventType, identity: Option<string>) returns (cancelled: bool)
    ensures cancelled <==> IsSessionType(t) && IsNullOrEmpty(identity)
  {
    var ev := SetUserIdentity(NewEvent(t), UserInfo(identity, None));
    var client := NewClient(false, "", 0);
    var ctx := new EventPluginContext(ev);
    client.RunPlugin(ctx, CancelSessionsWithNoUserPlugin);
    SessionCancelIff(t, identity);
    cancelled := ctx.cancel;
  }

  // ---------------------------------------------------------------------
  // Aggregate exceptions

  /** `new Exception(message)`: no properties, no inner exception. */
  function PlainException(id: ExnId, message: string): Exn {
    Exn(id, "System.Exception", message, [], [], false)
  }

  /** `new AggregateException(inners)`. */
  function AggregateOf(id: ExnId, inners: seq<Exn>): Exn {
    Exn(id, "System.AggregateException", "One or more errors occurred.", [], inners, true)
  }

  /** The default plugins are registered once each, so they form a harmless
      list: only type registrations, none of them the simple error plugin,
      and the error plugin at most once. */
  lemma DefaultsAreHarmless(regs: seq<Registration>)
    requires UniqueKeys(regs) && forall x :: x in regs <==> x in DefaultRegistrations
    ensures HarmlessList(regs)
  {
    DefaultTargets();
    forall i, j | 0 <= i < |regs| && 0 <= j < |regs| && regs[i].target == Typed(ErrorPlugin)
                  && regs[j].target == Typed(ErrorPlugin)
      ensures i == j
    {
      assert regs[i] in DefaultRegistrations && regs[j] in DefaultRegistrations;
      assert regs[i] == regs[j];
    }
  }

  /** The default plugins are harmless type registrations, and the third is
      the only one for the error plugin. */
  lemma DefaultTargets()
    ensures forall x :: x in DefaultRegistrations ==> x.target.Typed? && Harmless(x.target.pluginType)
    ensures forall x :: x in DefaultRegistrations && x.target == Typed(ErrorPlugin) ==> x == DefaultRegistrations[2]
  {
  }

  /** `HandleAggregateExceptionsPlugin.Run` on a new context for a new event
      carrying the exception `e`. */
  method RunAggregatePlugin(client: ExceptionlessClient, e: Exn) returns (cancel: bool, exception: Option<Exn>)
    requires client.Valid()
    modifies client, client.configuration
    ensures client.Valid() && client.Environment() == old(client.Environment())
    ensures client.delivered == old(client.delivered)
    ensures var r := RunTyped(old(client.Environment()), HandleAggregateExceptionsPlugin,
                              State(Ctx(NewEvent(Untyped), false, Some(e)), old(client.Current())));
            cancel == r.ctx.cancel && exception == r.ctx.exception && client.Current() == r.world
  {
    var ctx := new EventPluginContext(NewEvent(Untyped));
    ctx.SetException(e);
    client.RunPlugin(ctx, HandleAggregateExceptionsPlugin);
    cancel, exception := ctx.cancel, ctx.exception;
  }

  /** On a client without a valid API key: a plain exception passes; an
      aggregate with one inner exception is unwrapped; an aggregate with two
      is not split, and the first inner exception takes its place. */
  method HandleAggregateSingleInnerException()
      returns (cancels: seq<bool>, unwrapped: Option<Exn>, first: Option<Exn>)
    ensures cancels == [false, false, false]
    ensures unwrapped == Some(PlainException(1, "one")) && first == Some(PlainException(1, "one"))
  {
    var client := NewClient(false, "", 0);
    var one, two := PlainException(1, "one"), PlainException(2, "two");
    ghost var env := client.Environment();
    ghost var s := State(Ctx(NewEvent(Untyped), false, Some(one)), client.Current());
    AggregatePluginIgnoresOthers(env, s);
    var cancel, exception := RunAggregatePlugin(client, one);
    cancels := [cancel];

    s := State(Ctx(NewEvent(Untyped), false, Some(AggregateOf(3, [one]))), client.Current());
    AggregateWithOneInnerUnwraps(env, s, AggregateOf(3, [one]));
    cancel, unwrapped := RunAggregatePlugin(client, AggregateOf(3, [one]));
    cancels := cancels + [cancel];

    s := State(Ctx(NewEvent(Untyped), false, Some(AggregateOf(4, [one, two]))), client.Current());
    AggregateUnconfiguredKeepsFirst(env, s, AggregateOf(4, [one, two]));
    cancel, first := RunAggregatePlugin(client, AggregateOf(4, [one, two]));
    cancels := cancels + [cancel];
  }

  /** A new client with a valid API key, whose default plugins let a plain
      exception through. */
  method NewHarmlessClient(machineUser: string, environment: nat) returns (client: ExceptionlessClient)
    ensures fresh(client) && fresh(client.configuration) && client.Valid()
    ensures HarmlessList(client.configuration.registrations)
    ensures client.configuration.Settings() == Options({}, map[], [], [])
    ensures client.configured && client.exceptionData == map[] && client.queue == [] && client.delivered == []
  {
    client := new ExceptionlessClient(true, machineUser, environment);
    DefaultsAreHarmless(client.configuration.registrations);
  }

  /** On a client with a valid API key an aggregate with two inner
      exceptions is cancelled, each inner exception is submitted as its own
      event, and processing the queue hands exactly two events on. */
  method HandleAggregateMultipleInnerException() returns (cancelled: bool, delivered: nat)
    ensures cancelled && delivered == 2
  {
    var client := NewHarmlessClient("", 0);
    var one, two := PlainException(1, "one"), PlainException(2, "two");
    client.SetData(one, DataDict(NonGeneric, map[]));
    client.SetData(two, DataDict(NonGeneric, map[]));
    var agg := AggregateOf(3, [one, two]);
    ghost var env := client.Environment();
    ghost var s := State(Ctx(NewEvent(Untyped), false, Some(agg)), client.Current());
    assert forall i :: 0 <= i < |agg.inners| ==> !IsProcessed(DataOf(s.world.dicts, agg.inners[i]));
    AggregateFansOut(env, s, agg);
    var exception;
    cancelled, exception := RunAggregatePlugin(client, agg);
    client.ProcessQueue();
    delivered := |client.delivered|;
  }

  // ---------------------------------------------------------------------
  // The error plugins

  /** The key each error plugin stores its error under. */
  function ErrorKeyOf(plugin: PluginType): string
    requires plugin == ErrorPlugin || plugin == SimpleErrorPlugin
  {
    if plugin == ErrorPlugin then ErrorKey else SimpleErrorKey
  }

  /** The error record the plugin stored under `key`: `GetError` for the
      full plugin, `GetSimpleError` for the simple one. */
  function ErrorOf(key: string, ev: Event): Option<ErrorRecord> {
    if key in ev.data && ev.data[key].ErrorPayload? then Some(ev.data[key].error) else None
  }

  /** The number of entries of that record's `Data` (none without a record). */
  function ErrorDataCount(key: string, ev: Event): nat {
    if key in ev.data && ev.data[key].ErrorPayload? then |ev.data[key].error.data| else 0
  }

  /** The test exception type with its two text properties and the `Data`
      dictionary its third property sets. */
  function MyApplicationException(id: ExnId, ignored: Option<Value>, random: Option<Value>, data: Option<Value>): Exn {
    Exn(id, "Exceptionless.Tests.Plugins.PluginTests+MyApplicationException", "Test",
        TestProperties(ignored, random, data), [], false)
  }

  /** An error plugin's `Run` on a new context for a new event carrying the
      exception `e`. */
  method RunErrorPluginOn(client: ExceptionlessClient, plugin: PluginType, e: Exn) returns (cancel: bool, ev: Event)
    requires client.Valid() && (plugin == ErrorPlugin || plugin == SimpleErrorPlugin)
    modifies client, client.configuration
    ensures client.Valid() && client.Environment() == old(client.Environment())
    ensures var r := ErrorStep(ErrorKeyOf(plugin), old(client.Environment()),
                               State(Ctx(NewEvent(Untyped), false, Some(e)), old(client.Current())));
            cancel == r.ctx.cancel && ev == r.ctx.ev && client.Current() == r.world
  {
    var ctx := new EventPluginContext(NewEvent(Untyped));
    ctx.SetException(e);
    client.RunPlugin(ctx, plugin);
    cancel, ev := ctx.cancel, ctx.ev;
  }

  /** Running an error plugin twice for the same exception instance: the
      first run yields an error, the second is cancelled and yields none. */
  method ErrorPluginDiscardDuplicates(plugin: PluginType)
      returns (firstCancelled: bool, firstError: bool, secondCancelled: bool, secondError: bool)
    requires plugin == ErrorPlugin || plugin == SimpleErrorPlugin
    ensures !firstCancelled && firstError && secondCancelled && !secondError
  {
    var inner := MyApplicationException(2, Some(Text("Test")), Some(Text("Test")), None);
    var exception := Exn(1, "System.Exception", "Nested", [], [inner], false);
    var client := NewClient(false, "", 0);
    client.SetData(exception, DataDict(NonGeneric, map[]));
    DuplicateIsCancelled(ErrorKeyOf(plugin), client.Environment(), client.Current(), exception, Untyped);
    var cancel, ev := RunErrorPluginOn(client, plugin, exception);
    firstCancelled, firstError := cancel, HasError(ev);
    cancel, ev := RunErrorPluginOn(client, plugin, exception);
    secondCancelled, secondError := cancel, HasError(ev);
  }

  /** An error plugin on the test exception whose `Data` is `data` (null, or
      one entry under a key that no exclusion matches), with
      "SetsDataProperty" excluded: the run is not cancelled, the dictionary
      is marked exactly when its key type admits a string key, and the error
      holds the one entry (none for a null dictionary). */
  method ErrorPluginCanProcessDifferentExceptionDataDictionaryTypes(plugin: PluginType, data: Option<DataDict>)
      returns (cancelled: bool, marked: bool, found: bool, count: nat)
    requires plugin == ErrorPlugin || plugin == SimpleErrorPlugin
    requires data.Some? ==> exists k, v :: (data.value.entries == map[k := Some(v)]
               && k != "" && !AnyWildcardMatches(k, ExceptionExclusions + ["SetsDataProperty"]))
    ensures !cancelled && found
    ensures marked <==> data.Some? && CanMarkProcessed(data.value)
    ensures count == if data.Some? then 1 else 0
  {
    var exception := MyApplicationException(1, None, None, if data.Some? then Some(Opaque("Data")) else None);
    var client := NewClient(false, "", 0);
    if data.Some? {
      client.SetData(exception, data.value);
    }
    client.configuration.AddDataExclusions(["SetsDataProperty"]);
    assert client.configuration.dataExclusions == ["SetsDataProperty"];
    DictionaryKinds(ErrorKeyOf(plugin), client.Environment(), client.Current(), exception, Untyped);
    var ev;
    cancelled, ev := RunErrorPluginOn(client, plugin, exception);
    marked := IsProcessed(DataOf(client.exceptionData, exception));
    found := ErrorOf(ErrorKeyOf(plugin), ev).Some?;
    count := ErrorDataCount(ErrorKeyOf(plugin), ev);
  }

  /** An error plugin on the test exception with one text property set and
      a four-entry `Data` dictionary keyed by an int, a string, a GUID and a
      bool: the root error has five data entries, the four copies and the
      extra properties. */
  method ErrorPluginCopyExceptionDataToRootErrorData(plugin: PluginType, guid: string)
      returns (cancelled: bool, found: bool, count: nat)
    requires plugin == ErrorPlugin || plugin == SimpleErrorPlugin
    requires |guid| == 36
    ensures !cancelled && found && count == 5
  {
    var exception := MyApplicationException(1, None, Some(Text("Test")), Some(Opaque("Data")));
    var client := NewClient(false, "", 0);
    client.SetData(exception, FourEntries(guid));
    CopiesIntoRootError(ErrorKeyOf(plugin), client.Environment(), client.Current(), exception, Untyped, guid);
    var ev;
    cancelled, ev := RunErrorPluginOn(client, plugin, exception);
    found := ErrorOf(ErrorKeyOf(plugin), ev).Some?;
    count := ErrorDataCount(ErrorKeyOf(plugin), ev);
  }

  /** One error-plugin run on the test exception with both text properties
      set and a null `Data`: the extra properties hold both fields, or only
      `random_value` once "Ignore*" is a data exclusion. */
  method ExtraPropertiesAfterRun(client: ExceptionlessClient, plugin: PluginType, exception: Exn)
      returns (extra: Option<Value>)
    requires client.Valid() && (plugin == ErrorPlugin || plugin == SimpleErrorPlugin)
    requires exception.properties == TestProperties(Some(Text("Test")), Some(Text("Test")), None)
    requires exception.id !in client.exceptionData
    requires client.configuration.dataExclusions == [] || client.configuration.dataExclusions == ["Ignore*"]
    modifies client, client.configuration
    ensures client.Valid() && client.configuration.dataExclusions == old(client.configuration.dataExclusions)
    ensures exception.id !in client.exceptionData
    ensures extra == Some(ExtraProperties(
              if old(client.configuration.dataExclusions) == [] then [("ignored_property", Text("Test")), ("random_value", Text("Test"))]
              else [("random_value", Text("Test"))]))
  {
    IgnoredPropertiesLeaveRecord(ErrorKeyOf(plugin), client.Environment(), client.Current(), exception, Untyped);
    var cancel, ev := RunErrorPluginOn(client, plugin, exception);
    extra := ExtraPropertiesOf(ErrorKeyOf(plugin), ev);
  }

  /** The extra properties of the test exception with both text properties
      set hold `ignored_property` and `random_value`; once "Ignore*" is a
      data exclusion they hold only `random_value`. */
  method ErrorPluginIgnoredProperties(plugin: PluginType) returns (first: Option<Value>, second: Option<Value>)
    requires plugin == ErrorPlugin || plugin == SimpleErrorPlugin
    ensures first == Some(ExtraProperties([("ignored_property", Text("Test")), ("random_value", Text("Test"))]))
    ensures second == Some(ExtraProperties([("random_value", Text("Test"))]))
  {
    var exception := MyApplicationException(1, Some(Text("Test")), Some(Text("Test")), None);
    var client := NewClient(false, "", 0);
    first := ExtraPropertiesAfterRun(client, plugin, exception);
    client.configuration.AddDataExclusions(["Ignore*"]);
    assert client.configuration.dataExclusions == ["Ignore*"];
    second := ExtraPropertiesAfterRun(client, plugin, exception);
  }

  /** The extra-properties entry of the event's error, if any. */
  function ExtraPropertiesOf(key: string, ev: Event): Option<Value> {
    match ErrorOf(key, ev)
    case Some(error) => if ExtraPropertiesKey in error.data then Some(error.data[ExtraPropertiesKey]) else None
    case None => None
  }
}
