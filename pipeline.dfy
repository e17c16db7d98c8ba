/** The pipeline as a specification: what one plugin does to an event
    context, what running the registered plugins in order does, and what
    submitting an exception does.  The aggregate-exception plugin submits each
    inner exception through the whole pipeline again, so running, stepping and
    submitting are mutually recursive; they terminate because every nested
    submission is for a strictly smaller exception graph. */
module Pipeline {
  import opened Models
  import opened Exceptions
  import opened Registry
  import opened Rules

  /** What a run reads from the client and its configuration: default tags
      and data, data exclusions, bot patterns, whether the client has a valid
      API key, the machine user name and the environment payload. */
  datatype Env = Env(
    defaultTags: set<string>,
    defaultData: map<string, Value>,
    dataExclusions: seq<string>,
    botPatterns: seq<string>,
    configured: bool,
    machineUser: string,
    environment: nat)

  /** State that outlives one run: the exceptions' `Data` dictionaries, the
      plugin registry, the source of fresh reference ids and the queue of
      accepted events. */
  datatype World = World(
    dicts: map<ExnId, DataDict>,
    plugins: PluginState,
    nextSerial: nat,
    queue: seq<Event>)

  /** An event plugin context: the event, the cancel flag and the exception
      carried in the context data. */
  datatype Ctx = Ctx(ev: Event, cancel: bool, exception: Option<Exn>)

  datatype State = State(ctx: Ctx, world: World)

  /** A run starts from a context and a world that satisfy this. */
  predicate Ready(s: State) {
    Wf(s.world.plugins)
  }

  /** What the error plugins do: nothing without an exception; cancel when
      the exception was already processed; otherwise make the event an error
      event carrying the error record under `key`, and mark the exception. */
  function ErrorStep(key: string, env: Env, s: State): (r: State)
    ensures r.world.plugins == s.world.plugins && r.world.queue == s.world.queue
    ensures r.world.nextSerial == s.world.nextSerial && r.ctx.exception == s.ctx.exception
    ensures s.ctx.exception.None? ==> r == s
    ensures s.ctx.exception.Some? && IsProcessed(DataOf(s.world.dicts, s.ctx.exception.value)) ==>
              r == s.(ctx := s.ctx.(cancel := true))
    ensures s.ctx.exception.Some? && !IsProcessed(DataOf(s.world.dicts, s.ctx.exception.value)) ==>
              r.ctx.cancel == s.ctx.cancel && r.ctx.ev.eventType.Error?
              && key in r.ctx.ev.data
              && r.ctx.ev.data[key] == ErrorPayload(ToErrorRecord(s.ctx.exception.value, s.world.dicts, env.dataExclusions))
              && r.ctx.ev.data.Keys == s.ctx.ev.data.Keys + {key}
              && r.world.dicts == MarkInTable(s.world.dicts, s.ctx.exception.value)
    ensures r.ctx.ev.tags == s.ctx.ev.tags && r.ctx.ev.message == s.ctx.ev.message
    ensures r.ctx.ev.referenceId == s.ctx.ev.referenceId
    ensures forall k :: k in s.ctx.ev.data && k != key ==> k in r.ctx.ev.data && r.ctx.ev.data[k] == s.ctx.ev.data[k]
  {
    if s.ctx.exception.None? then s
    else
      var e := s.ctx.exception.value;
      if IsProcessed(DataOf(s.world.dicts, e)) then s.(ctx := s.ctx.(cancel := true))
      else
        var record := ToErrorRecord(e, s.world.dicts, env.dataExclusions);
        var ev := s.ctx.ev.(eventType := Error, data := s.ctx.ev.data[key := ErrorPayload(record)]);
        State(s.ctx.(ev := ev), s.world.(dicts := MarkInTable(s.world.dicts, e)))
  }

  /** Runs a constructed plugin of type `t`. */
  function RunTyped(env: Env, t: PluginType, s: State): (r: State)
    requires Ready(s)
    ensures Ready(r) && r.world.plugins.regs == s.world.plugins.regs
    ensures s.ctx.cancel ==> r.ctx.cancel
    ensures OptionSize(r.ctx.exception) <= OptionSize(s.ctx.exception)
    ensures |s.world.queue| <= |r.world.queue| && r.world.queue[..|s.world.queue|] == s.world.queue
    decreases OptionSize(s.ctx.exception), 0, 0
  {
    var ctx := s.ctx;
    match t
    case ConfigurationDefaultsPlugin =>
      s.(ctx := ctx.(ev := ApplyDefaults(ctx.ev, env.defaultTags, env.defaultData, env.dataExclusions)))
    case HandleAggregateExceptionsPlugin =>
      if ctx.exception.None? || !ctx.exception.value.isAggregate then s
      else
        var e := ctx.exception.value;
        if |e.inners| == 1 then
          InnerSmaller(e, 0);
          s.(ctx := ctx.(exception := Some(e.inners[0])))
        else if !env.configured then
          if |e.inners| > 0 then
            InnerSmaller(e, 0);
            s.(ctx := ctx.(exception := Some(e.inners[0])))
          else s.(ctx := ctx.(exception := None))
        else
          State(ctx.(cancel := true), SubmitAll(env, s.world, e.inners))
    case ErrorPlugin => ErrorStep(ErrorKey, env, s)
    case SimpleErrorPlugin => ErrorStep(SimpleErrorKey, env, s)
    case SetEnvironmentUserPlugin =>
      s.(ctx := ctx.(ev := WithEnvironmentUser(ctx.ev, env.machineUser)))
    case EnvironmentInfoPlugin =>
      s.(ctx := ctx.(ev := WithEnvironmentInfo(ctx.ev, env.environment)))
    case CancelSessionsWithNoUserPlugin =>
      if CancelsSession(ctx.ev) then s.(ctx := ctx.(cancel := true)) else s
    case IgnoreUserAgentPlugin =>
      if IsBotRequest(ctx.ev, env.botPatterns) then s.(ctx := ctx.(cancel := true)) else s
    case ReferenceIdPlugin =>
      var ev := WithReferenceId(ctx.ev, s.world.nextSerial);
      if ev == ctx.ev then s
      else State(ctx.(ev := ev), s.world.(nextSerial := s.world.nextSerial + 1))
    case CounterTestPlugin =>
      var p := s.world.plugins;
      s.(world := s.world.(plugins := p.(counters := p.counters.(runs := p.counters.runs + 1))))
    case ThrowIfInitializedTestPlugin => s
    case PluginWithNoPriority => s
    case PluginWithPriority11 => s
  }

  /** Runs one registration: an inline function directly; a type after
      obtaining its instance.  The flag says whether the plugin ran; a plugin
      whose constructor throws does not run and leaves the state as it was. */
  function Step(env: Env, reg: Registration, s: State): (r: (bool, State))
    requires Ready(s) && reg in s.world.plugins.regs
    ensures Ready(r.1) && r.1.world.plugins.regs == s.world.plugins.regs
    ensures s.ctx.cancel ==> r.1.ctx.cancel
    ensures !r.0 ==> r.1 == s
    ensures OptionSize(r.1.ctx.exception) <= OptionSize(s.ctx.exception)
    ensures |s.world.queue| <= |r.1.world.queue| && r.1.world.queue[..|s.world.queue|] == s.world.queue
    decreases OptionSize(s.ctx.exception), 1, 0
  {
    match reg.target
    case Inline(action) =>
      var (ev, cancel) := ApplyInline(action, s.ctx.ev, s.ctx.cancel);
      (true, s.(ctx := s.ctx.(ev := ev, cancel := cancel)))
    case Typed(t) =>
      var (ok, plugins) := Materialize(s.world.plugins, reg);
      if !ok then (false, s)
      else (true, RunTyped(env, t, s.(world := s.world.(plugins := plugins))))
  }

  /** Runs the registrations in order, stopping right after the first plugin
      that leaves the context cancelled. */
  function RunPlugins(env: Env, regs: seq<Registration>, s: State): (r: State)
    requires Ready(s) && forall x :: x in regs ==> x in s.world.plugins.regs
    ensures Ready(r) && r.world.plugins.regs == s.world.plugins.regs
    ensures s.ctx.cancel ==> r.ctx.cancel
    ensures OptionSize(r.ctx.exception) <= OptionSize(s.ctx.exception)
    ensures |s.world.queue| <= |r.world.queue| && r.world.queue[..|s.world.queue|] == s.world.queue
    decreases OptionSize(s.ctx.exception), 2, |regs|
  {
    if regs == [] then s
    else
      var (ran, next) := Step(env, regs[0], s);
      if ran && next.ctx.cancel then next
      else
        assert forall x :: x in regs[1..] ==> x in regs;
        RunPlugins(env, regs[1..], next)
  }

  /** The context a submitted exception starts from: a new error event with
      the exception in its context data. */
  function ExceptionContext(e: Exn): Ctx {
    Ctx(NewEvent(Error), false, Some(e))
  }

  /** Submitting an exception: nothing happens on a client without a valid
      API key; otherwise the whole pipeline runs on a new error event and,
      unless it was cancelled, the event joins the queue. */
  function Submit(env: Env, w: World, e: Exn): (r: World)
    requires Wf(w.plugins)
    ensures Wf(r.plugins) && r.plugins.regs == w.plugins.regs
    ensures |w.queue| <= |r.queue| && r.queue[..|w.queue|] == w.queue
    decreases Size(e), 3, 0
  {
    if !env.configured then w
    else
      var s := RunPlugins(env, w.plugins.regs, State(ExceptionContext(e), w));
      if s.ctx.cancel then s.world
      else s.world.(queue := s.world.queue + [s.ctx.ev])
  }

  /** Submits each exception in turn. */
  function SubmitAll(env: Env, w: World, es: seq<Exn>): (r: World)
    requires Wf(w.plugins)
    ensures Wf(r.plugins) && r.plugins.regs == w.plugins.regs
    ensures |w.queue| <= |r.queue| && r.queue[..|w.queue|] == w.queue
    decreases SizeOfAll(es), 4, |es|
  {
    if es == [] then w
    else
      var next := Submit(env, w, es[0]);
      var r := SubmitAll(env, next, es[1..]);
      assert r.queue[..|w.queue|] == r.queue[..|next.queue|][..|w.queue|];
      r
  }
}
