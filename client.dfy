/** The client objects whose state the pipeline changes in place: the
    configuration with its plugin registry and settings, the plugin context,
    and the client with the exceptions' `Data` dictionaries, the reference-id
    source and the event queue.  Every state-changing method is proved to do
    exactly what the pipeline specification says. */
module Client {
  import opened Models
  import opened Exceptions
  import opened Registry
  import opened Rules
  import opened Pipeline

  /** The priority of a plugin type without a priority attribute (any value
      below 1 fits what the client promises). */
  const DefaultPriority: int := 0

  /** The registrations of the plugins a new configuration registers by
      type. */
  const DefaultRegistrations: seq<Registration> := [
    TypeRegistration(ConfigurationDefaultsPlugin, DefaultPriority),
    TypeRegistration(HandleAggregateExceptionsPlugin, DefaultPriority),
    TypeRegistration(ErrorPlugin, DefaultPriority),
    TypeRegistration(SetEnvironmentUserPlugin, DefaultPriority),
    TypeRegistration(EnvironmentInfoPlugin, DefaultPriority),
    TypeRegistration(CancelSessionsWithNoUserPlugin, DefaultPriority),
    TypeRegistration(IgnoreUserAgentPlugin, DefaultPriority)]

  /** The default plugins are registered under distinct keys: each key is
      told apart by its length and the first letter of the type name. */
  lemma DefaultKeysDistinct()
    ensures forall i, j :: 0 <= i < j < |DefaultRegistrations| ==> DefaultRegistrations[i].key != DefaultRegistrations[j].key
  {
    DefaultKeyShapes();
  }

  lemma DefaultKeyShapes()
    ensures var d := DefaultRegistrations;
            && |d[0].key| == 57 && d[0].key[30] == 'C'
            && |d[1].key| == 61 && d[1].key[30] == 'H'
            && |d[2].key| == 41 && d[2].key[30] == 'E'
            && |d[3].key| == 54 && d[3].key[30] == 'S'
            && |d[4].key| == 51 && d[4].key[30] == 'E'
            && |d[5].key| == 60 && d[5].key[30] == 'C'
            && |d[6].key| == 51 && d[6].key[30] == 'I'
  {
  }

  /** Registering the next default plugin after the first `i` ones yields
      the first `i + 1`. */
  lemma DefaultPrefixGrows(regs: seq<Registration>, r: seq<Registration>, i: nat)
    requires i < |DefaultRegistrations|
    requires forall x :: x in regs <==> x in DefaultRegistrations[..i]
    requires forall x :: x in r <==> x == DefaultRegistrations[i] || (x in regs && x.key != DefaultRegistrations[i].key)
    ensures forall x :: x in r <==> x in DefaultRegistrations[..i + 1]
  {
    DefaultKeysDistinct();
    assert DefaultRegistrations[..i + 1] == DefaultRegistrations[..i] + [DefaultRegistrations[i]];
    forall x | x in regs ensures x.key != DefaultRegistrations[i].key {
      var j :| 0 <= j < i && DefaultRegistrations[j] == x;
    }
  }

  /** The settings a run reads from a configuration. */
  datatype Options = Options(
    defaultTags: set<string>,
    defaultData: map<string, Value>,
    dataExclusions: seq<string>,
    botPatterns: seq<string>)

  class ExceptionlessConfiguration {
    /** The registrations, in ascending priority order. */
    var registrations: seq<Registration>
    /** The keys whose plugin instance has been created. */
    var constructed: set<string>
    /** The counters of the counting test plugin. */
    var counters: Counters
    var defaultTags: set<string>
    var defaultData: map<string, Value>
    var dataExclusions: seq<string>
    var botPatterns: seq<string>

    function PluginsState(): PluginState
      reads this
    {
      PluginState(registrations, constructed, counters)
    }

    function Settings(): Options
      reads this
    {
      Options(defaultTags, defaultData, dataExclusions, botPatterns)
    }

    predicate Valid()
      reads this
    {
      Wf(PluginsState())
    }

    /** A new configuration registers the default plugins, none of them
        constructed, and has no default tags, data, exclusions or bot
        patterns. */
    constructor ()
      ensures Valid()
      ensures forall x :: x in registrations <==> x in DefaultRegistrations
      ensures constructed == {} && counters == Counters(0, 0, 0)
      ensures Settings() == Options({}, map[], [], [])
    {
      registrations := [];
      constructed := {};
      counters := Counters(0, 0, 0);
      defaultTags := {};
      defaultData := map[];
      dataExclusions := [];
      botPatterns := [];
      new;
      var i := 0;
      while i < |DefaultRegistrations|
        invariant 0 <= i <= |DefaultRegistrations|
        invariant Valid() && constructed == {} && counters == Counters(0, 0, 0)
        invariant Settings() == Options({}, map[], [], [])
        invariant forall x :: x in registrations <==> x in DefaultRegistrations[..i]
      {
        ghost var before := registrations;
        AddPlugin(DefaultRegistrations[i]);
        DefaultPrefixGrows(before, registrations, i);
        i := i + 1;
      }
      assert DefaultRegistrations[..i] == DefaultRegistrations;
    }

    /** Registers `reg`, replacing a registration with the same key. */
    method AddPlugin(reg: Registration)
      requires Valid()
      modifies this
      ensures Valid() && PluginsState() == Registry.AddPlugin(old(PluginsState()), reg)
      ensures Settings() == old(Settings())
    {
      registrations := Add(registrations, reg);
      constructed := constructed - {reg.key};
    }

    /** `AddPlugin<T>()`. */
    method AddPluginType(t: PluginType)
      requires Valid()
      modifies this
      ensures Valid() && PluginsState() == Registry.AddPlugin(old(PluginsState()), TypeRegistration(t, DefaultPriority))
      ensures Settings() == old(Settings())
    {
      AddPlugin(TypeRegistration(t, DefaultPriority));
    }

    /** Removes the registration under `key`, disposing its instance if one
        was created; an unknown key changes nothing. */
    method RemovePlugin(key: string)
      requires Valid()
      modifies this
      ensures Valid() && PluginsState() == Registry.RemovePlugin(old(PluginsState()), key)
      ensures Settings() == old(Settings())
    {
      var found := Find(registrations, key);
      if found.None? {
        return;
      }
      if key in constructed && found.value.target == Typed(CounterTestPlugin) {
        counters := counters.(disposed := counters.disposed + 1);
      }
      RemoveKeySorted(registrations, key);
      RemoveKeyUnique(registrations, key);
      registrations := RemoveKey(registrations, key);
      constructed := constructed - {key};
    }

    /** `RemovePlugin<T>()`. */
    method RemovePluginType(t: PluginType)
      requires Valid()
      modifies this
      ensures Valid() && PluginsState() == Registry.RemovePlugin(old(PluginsState()), TypeKey(t))
      ensures Settings() == old(Settings())
    {
      RemovePlugin(TypeKey(t));
    }

    /** Removes every registration, one key at a time. */
    method RemoveAllPlugins()
      requires Valid()
      modifies this
      ensures Valid() && registrations == []
      ensures constructed == {} && counters.constructed == old(counters.constructed)
      ensures counters.runs == old(counters.runs)
      ensures old(constructed) == {} ==> counters == old(counters)
      ensures counters.disposed == old(counters.disposed) + CountingDisposals(old(registrations), old(constructed))
      ensures Settings() == old(Settings())
    {
      var i := 0;
      var all := registrations;
      while i < |all|
        invariant 0 <= i <= |all|
        invariant Valid() && Settings() == old(Settings())
        invariant UniqueKeys(all) && registrations == all[i..]
        invariant constructed <= old(constructed)
        invariant forall j :: i <= j < |all| ==> (all[j].key in constructed <==> all[j].key in old(constructed))
        invariant counters.constructed == old(counters.constructed) && counters.runs == old(counters.runs)
        invariant old(constructed) == {} ==> counters == old(counters)
        invariant counters.disposed + CountingDisposals(all[i..], old(constructed))
               == old(counters.disposed) + CountingDisposals(all, old(constructed))
      {
        RemoveHead(PluginsState());
        assert all[i..][1..] == all[i + 1..];
        ghost var before := constructed;
        RemovePlugin(all[i].key);
        forall j | i + 1 <= j < |all|
          ensures all[j].key in constructed <==> all[j].key in before
        {
          assert all[j].key != all[i].key;
        }
        i := i + 1;
      }
      assert forall k :: k in constructed ==> k in Keys(registrations);
    }

    /** `UseReferenceIds()`. */
    method UseReferenceIds()
      requires Valid()
      modifies this
      ensures Valid() && PluginsState() == Registry.AddPlugin(old(PluginsState()), TypeRegistration(ReferenceIdPlugin, DefaultPriority))
      ensures Settings() == old(Settings())
    {
      AddPluginType(ReferenceIdPlugin);
    }

    method AddDataExclusions(patterns: seq<string>)
      modifies this
      ensures PluginsState() == old(PluginsState())
      ensures Settings() == old(Settings()).(dataExclusions := old(dataExclusions) + patterns)
    {
      dataExclusions := dataExclusions + patterns;
    }

    method AddUserAgentBotPatterns(patterns: seq<string>)
      modifies this
      ensures PluginsState() == old(PluginsState())
      ensures Settings() == old(Settings()).(botPatterns := old(botPatterns) + patterns)
    {
      botPatterns := botPatterns + patterns;
    }

    method AddDefaultTag(tag: string)
      modifies this
      ensures PluginsState() == old(PluginsState())
      ensures Settings() == old(Settings()).(defaultTags := old(defaultTags) + {tag})
    {
      defaultTags := defaultTags + {tag};
    }

    /** Adding a default data entry: the dictionary refuses a key it holds. */
    method AddDefaultData(key: string, value: Value)
      requires key !in defaultData
      modifies this
      ensures PluginsState() == old(PluginsState())
      ensures Settings() == old(Settings()).(defaultData := old(defaultData)[key := value])
    {
      defaultData := defaultData[key := value];
    }

    /** The instance of a type registration: reused, or created on first
        use; a constructor that throws yields none. */
    method Resolve(reg: Registration) returns (ok: bool)
      requires Valid() && reg in registrations && reg.target.Typed?
      modifies this
      ensures Valid() && (ok, PluginsState()) == Materialize(old(PluginsState()), reg)
      ensures Settings() == old(Settings())
    {
      if reg.key in constructed {
        return true;
      }
      if FailsToConstruct(reg.target.pluginType) {
        return false;
      }
      assert reg.key in Keys(registrations);
      constructed := constructed + {reg.key};
      if reg.target.pluginType.CounterTestPlugin? {
        counters := counters.(constructed := counters.constructed + 1);
      }
      return true;
    }
  }

  /** An event plugin context: the event, the cancel flag and the exception
      carried in the context data. */
  class EventPluginContext {
    var ev: Event
    var cancel: bool
    var exception: Option<Exn>

    constructor (ev: Event)
      ensures this.ev == ev && !cancel && exception.None?
    {
      this.ev := ev;
      cancel := false;
      exception := None;
    }

    method SetException(e: Exn)
      modifies this
      ensures ev == old(ev) && cancel == old(cancel) && exception == Some(e)
    {
      exception := Some(e);
    }

    function Snapshot(): Ctx
      reads this
    {
      Ctx(ev, cancel, exception)
    }
  }

  class ExceptionlessClient {
    const configuration: ExceptionlessConfiguration
    /** Whether the client has a valid API key. */
    const configured: bool
    const machineUser: string
    const environment: nat
    /** The `Data` dictionaries of the exceptions the client has seen. */
    var exceptionData: map<ExnId, DataDict>
    /** Source of fresh reference ids. */
    var nextSerial: nat
    /** Events accepted and waiting for `ProcessQueue`. */
    var queue: seq<Event>
    /** Events handed to the submission client. */
    var delivered: seq<Event>

    predicate Valid()
      reads this, configuration
    {
      configuration.Valid()
    }

    function Environment(): Env
      reads this, configuration
    {
      var o := configuration.Settings();
      Env(o.defaultTags, o.defaultData, o.dataExclusions, o.botPatterns, configured, machineUser, environment)
    }

    function Current(): World
      reads this, configuration
    {
      World(exceptionData, configuration.PluginsState(), nextSerial, queue)
    }

    function StateOf(ctx: EventPluginContext): State
      reads this, configuration, ctx
    {
      State(ctx.Snapshot(), Current())
    }

    /** A new client with a default configuration and nothing queued. */
    constructor (configured: bool, machineUser: string, environment: nat)
      ensures Valid() && fresh(configuration)
      ensures forall x :: x in configuration.registrations <==> x in DefaultRegistrations
      ensures configuration.constructed == {} && configuration.counters == Counters(0, 0, 0)
      ensures configuration.Settings() == Options({}, map[], [], [])
      ensures this.configured == configured && this.machineUser == machineUser && this.environment == environment
      ensures exceptionData == map[] && queue == [] && delivered == []
    {
      configuration := new ExceptionlessConfiguration();
      this.configured := configured;
      this.machineUser := machineUser;
      this.environment := environment;
      exceptionData := map[];
      nextSerial := 0;
      queue := [];
      delivered := [];
    }

    /** Gives the exception instance `e` a `Data` dictionary. */
    method SetData(e: Exn, d: DataDict)
      modifies this
      ensures exceptionData == old(exceptionData)[e.id := d]
      ensures nextSerial == old(nextSerial) && queue == old(queue) && delivered == old(delivered)
    {
      exceptionData := exceptionData[e.id := d];
    }

    /** What the error plugins do, storing the error under `key`. */
    method RunErrorPlugin(ctx: EventPluginContext, key: string)
      modifies this, ctx
      ensures StateOf(ctx) == ErrorStep(key, old(Environment()), old(StateOf(ctx)))
      ensures delivered == old(delivered)
    {
      if ctx.exception.None? {
        return;
      }
      var e := ctx.exception.value;
      if IsProcessed(DataOf(exceptionData, e)) {
        ctx.cancel := true;
        return;
      }
      var record := ToErrorRecord(e, exceptionData, configuration.dataExclusions);
      ctx.ev := ctx.ev.(eventType := Error, data := ctx.ev.data[key := ErrorPayload(record)]);
      exceptionData := MarkInTable(exceptionData, e);
    }

    /** Runs a constructed plugin of type `t` on the context. */
    method RunPlugin(ctx: EventPluginContext, t: PluginType)
      requires Valid()
      modifies this, configuration, ctx
      ensures Valid() && StateOf(ctx) == RunTyped(old(Environment()), t, old(StateOf(ctx)))
      ensures Environment() == old(Environment()) && delivered == old(delivered)
      decreases OptionSize(ctx.exception), 0, 1
    {
      var env := Environment();
      match t
      case ConfigurationDefaultsPlugin =>
        ctx.ev := ApplyDefaults(ctx.ev, env.defaultTags, env.defaultData, env.dataExclusions);
      case HandleAggregateExceptionsPlugin =>
        if ctx.exception.None? || !ctx.exception.value.isAggregate {
          return;
        }
        var e := ctx.exception.value;
        if |e.inners| == 1 {
          ctx.exception := Some(e.inners[0]);
        } else if !configured {
          ctx.exception := if |e.inners| > 0 then Some(e.inners[0]) else None;
        } else {
          SubmitInners(e);
          ctx.cancel := true;
        }
      case ErrorPlugin =>
        RunErrorPlugin(ctx, ErrorKey);
      case SimpleErrorPlugin =>
        RunErrorPlugin(ctx, SimpleErrorKey);
      case SetEnvironmentUserPlugin =>
        ctx.ev := WithEnvironmentUser(ctx.ev, machineUser);
      case EnvironmentInfoPlugin =>
        ctx.ev := WithEnvironmentInfo(ctx.ev, environment);
      case CancelSessionsWithNoUserPlugin =>
        if CancelsSession(ctx.ev) {
          ctx.cancel := true;
        }
      case IgnoreUserAgentPlugin =>
        if IsBotRequest(ctx.ev, env.botPatterns) {
          ctx.cancel := true;
        }
      case ReferenceIdPlugin =>
        var ev := WithReferenceId(ctx.ev, nextSerial);
        if ev != ctx.ev {
          ctx.ev := ev;
          nextSerial := nextSerial + 1;
        }
      case CounterTestPlugin =>
        configuration.counters := configuration.counters.(runs := configuration.counters.runs + 1);
      case ThrowIfInitializedTestPlugin =>
      case PluginWithNoPriority =>
      case PluginWithPriority11 =>
    }

    /** Submits each inner exception of `e` in turn, as the aggregate plugin
        does on a configured client. */
    method SubmitInners(e: Exn)
      requires Valid()
      modifies this, configuration
      ensures Valid() && Current() == SubmitAll(old(Environment()), old(Current()), e.inners)
      ensures Environment() == old(Environment()) && delivered == old(delivered)
      decreases Size(e), 0, 0
    {
      var env, w0 := Environment(), Current();
      var i := 0;
      while i < |e.inners|
        invariant 0 <= i <= |e.inners|
        invariant Valid() && Environment() == env && delivered == old(delivered)
        invariant SubmitAll(env, w0, e.inners) == SubmitAll(env, Current(), e.inners[i..])
      {
        InnerSmaller(e, i);
        assert e.inners[i..][1..] == e.inners[i + 1..];
        SubmitException(e.inners[i]);
        i := i + 1;
      }
    }

    /** Runs one registration; reports whether a plugin ran. */
    method RunRegistration(ctx: EventPluginContext, reg: Registration) returns (ran: bool)
      requires Valid() && reg in configuration.registrations
      modifies this, configuration, ctx
      ensures Valid() && (ran, StateOf(ctx)) == Step(old(Environment()), reg, old(StateOf(ctx)))
      ensures Environment() == old(Environment()) && delivered == old(delivered)
      decreases OptionSize(ctx.exception), 1, 0
    {
      match reg.target
      case Inline(action) =>
        match action {
          case CancelEvent =>
            ctx.cancel := true;
          case AddTag(tag) =>
            ctx.ev := ctx.ev.(tags := ctx.ev.tags + {tag});
          case SetVersion(version) =>
            ctx.ev := ctx.ev.(data := ctx.ev.data[VersionKey := Text(version)]);
        }
        ran := true;
      case Typed(t) =>
        ran := configuration.Resolve(reg);
        if ran {
          RunPlugin(ctx, t);
        }
    }

    /** Runs the registered plugins in order, stopping right after the first
        plugin that leaves the context cancelled. */
    method Run(ctx: EventPluginContext)
      requires Valid()
      modifies this, configuration, ctx
      ensures Valid()
      ensures StateOf(ctx) == RunPlugins(old(Environment()), old(configuration.registrations), old(StateOf(ctx)))
      ensures Environment() == old(Environment()) && delivered == old(delivered)
      decreases OptionSize(ctx.exception), 2, 0
    {
      var env := Environment();
      var regs := configuration.registrations;
      var s0 := StateOf(ctx);
      var i := 0;
      while i < |regs|
        invariant 0 <= i <= |regs|
        invariant Valid() && Environment() == env && delivered == old(delivered)
        invariant configuration.registrations == regs
        invariant OptionSize(ctx.exception) <= OptionSize(s0.ctx.exception)
        invariant forall x :: x in regs[i..] ==> x in regs
        invariant RunPlugins(env, regs, s0) == RunPlugins(env, regs[i..], StateOf(ctx))
      {
        assert regs[i..][0] == regs[i] && regs[i..][1..] == regs[i + 1..];
        var ran := RunRegistration(ctx, regs[i]);
        if ran && ctx.cancel {
          return;
        }
        i := i + 1;
      }
    }

    /** Submitting an exception: on a client with a valid API key the
        pipeline runs on a new error event carrying the exception, and the
        event is queued unless a plugin cancelled it. */
    method SubmitException(e: Exn)
      requires Valid()
      modifies this, configuration
      ensures Valid() && Current() == Submit(old(Environment()), old(Current()), e)
      ensures Environment() == old(Environment()) && delivered == old(delivered)
      decreases Size(e), 3, 0
    {
      if !configured {
        return;
      }
      var ctx := new EventPluginContext(NewEvent(Error));
      ctx.SetException(e);
      assert ctx.Snapshot() == ExceptionContext(e);
      Run(ctx);
      if !ctx.cancel {
        queue := queue + [ctx.ev];
      }
    }

    /** Hands every queued event to the submission client, in order. */
    method ProcessQueue()
      modifies this
      ensures delivered == old(delivered) + old(queue) && queue == []
      ensures exceptionData == old(exceptionData) && nextSerial == old(nextSerial)
    {
      while queue != []
        invariant delivered + queue == old(delivered) + old(queue)
        invariant exceptionData == old(exceptionData) && nextSerial == old(nextSerial)
        decreases |queue|
      {
        delivered := delivered + [queue[0]];
        queue := queue[1..];
      }
    }
  }
}
