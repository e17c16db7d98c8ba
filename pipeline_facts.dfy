/** What the pipeline specification promises: cancellation is final, the
    aggregate-exception plugin unwraps or fans out, a plain exception passes
    the built-in plugins and is queued, reference ids appear only once they
    are enabled, and the counting test plugin sees the lazy lifecycle. */
module PipelineFacts {
  import opened Models
  import opened Exceptions
  import opened Registry
  import opened Rules
  import opened Pipeline

  // ---------------------------------------------------------------------
  // Cancellation

  /** Once an inline plugin cancels, no later plugin runs: the run over the
      whole list is the run over the list cut just after it, and it ends
      cancelled. */
  lemma {:induction false} CancelIsFinal(env: Env, regs: seq<Registration>, s: State, k: nat)
    requires Ready(s) && forall x :: x in regs ==> x in s.world.plugins.regs
    requires k < |regs| && regs[k].target == Inline(CancelEvent)
    ensures forall x :: x in regs[..k + 1] ==> x in s.world.plugins.regs
    ensures RunPlugins(env, regs, s) == RunPlugins(env, regs[..k + 1], s)
    ensures RunPlugins(env, regs, s).ctx.cancel
  {
    assert forall x :: x in regs[..k + 1] ==> x in regs;
    var (ran, next) := Step(env, regs[0], s);
    assert regs[..k + 1][0] == regs[0];
    if k == 0 {
      assert ran && next.ctx.cancel;
    } else if !(ran && next.ctx.cancel) {
      assert regs[..k + 1][1..] == regs[1..][..k];
      assert forall x :: x in regs[1..] ==> x in regs;
      CancelIsFinal(env, regs[1..], next, k - 1);
    }
  }

  /** Once any plugin leaves an uncancelled context cancelled, no later plugin
      runs: when the run over the first `j` registrations ends cancelled, the
      run over the whole list is that run.  A plugin whose construction fails
      changes nothing, so only a plugin that ran can set the flag. */
  lemma {:induction false} CancelStopsRun(env: Env, regs: seq<Registration>, s: State, j: nat)
    requires Ready(s) && forall x :: x in regs ==> x in s.world.plugins.regs
    requires !s.ctx.cancel && j <= |regs|
    ensures forall x :: x in regs[..j] ==> x in s.world.plugins.regs
    ensures RunPlugins(env, regs[..j], s).ctx.cancel ==> RunPlugins(env, regs, s) == RunPlugins(env, regs[..j], s)
  {
    assert forall x :: x in regs[..j] ==> x in regs;
    if j > 0 {
      var (ran, next) := Step(env, regs[0], s);
      assert regs[..j][0] == regs[0];
      if !(ran && next.ctx.cancel) {
        assert regs[..j][1..] == regs[1..][..j - 1];
        assert forall x :: x in regs[1..] ==> x in regs;
        CancelStopsRun(env, regs[1..], next, j - 1);
      }
    }
  }

  /** The two inline plugins of the cancellation test: "cancel" at priority
      1 and "add-tag" at priority 2.  The run ends cancelled and the tag is
      never added. */
  lemma CancelSkipsLaterPlugins(env: Env, s: State)
    requires Ready(s) && s.ctx.ev.tags == {}
    requires var regs := [Registration("cancel", 1, Inline(CancelEvent)),
                          Registration("add-tag", 2, Inline(AddTag("Was Not Canceled")))];
             forall x :: x in regs ==> x in s.world.plugins.regs
    ensures var regs := [Registration("cancel", 1, Inline(CancelEvent)),
                         Registration("add-tag", 2, Inline(AddTag("Was Not Canceled")))];
            var r := RunPlugins(env, regs, s);
            r.ctx.cancel && |r.ctx.ev.tags| == 0
  {
    var regs := [Registration("cancel", 1, Inline(CancelEvent)),
                 Registration("add-tag", 2, Inline(AddTag("Was Not Canceled")))];
    CancelIsFinal(env, regs, s, 0);
    assert regs[..1] == [regs[0]];
  }

  // ---------------------------------------------------------------------
  // The enrichment plugins, one run each

  /** The defaults plugin replaces the event by the event with the defaults
      applied, and touches nothing else. */
  lemma DefaultsPluginStep(env: Env, s: State)
    requires Ready(s)
    ensures RunTyped(env, ConfigurationDefaultsPlugin, s)
         == s.(ctx := s.ctx.(ev := ApplyDefaults(s.ctx.ev, env.defaultTags, env.defaultData, env.dataExclusions)))
  {
  }

  /** The bot filter cancels exactly bot requests and changes nothing else. */
  lemma BotFilterStep(env: Env, s: State)
    requires Ready(s)
    ensures RunTyped(env, IgnoreUserAgentPlugin, s)
         == s.(ctx := s.ctx.(cancel := s.ctx.cancel || IsBotRequest(s.ctx.ev, env.botPatterns)))
  {
  }

  /** The session check cancels exactly sessions without a user. */
  lemma SessionCheckStep(env: Env, s: State)
    requires Ready(s)
    ensures RunTyped(env, CancelSessionsWithNoUserPlugin, s)
         == s.(ctx := s.ctx.(cancel := s.ctx.cancel || CancelsSession(s.ctx.ev)))
  {
  }

  // ---------------------------------------------------------------------
  // Aggregate exceptions

  /** Without an aggregate exception the plugin changes nothing. */
  lemma AggregatePluginIgnoresOthers(env: Env, s: State)
    requires Ready(s)
    requires s.ctx.exception.None? || !s.ctx.exception.value.isAggregate
    ensures RunTyped(env, HandleAggregateExceptionsPlugin, s) == s
  {
  }

  /** An aggregate with one inner exception is unwrapped: the context carries
      the inner exception and nothing else changes. */
  lemma AggregateWithOneInnerUnwraps(env: Env, s: State, agg: Exn)
    requires Ready(s) && s.ctx.exception == Some(agg) && agg.isAggregate && |agg.inners| == 1
    ensures RunTyped(env, HandleAggregateExceptionsPlugin, s) == s.(ctx := s.ctx.(exception := Some(agg.inners[0])))
  {
  }

  /** On a client without a valid API key an aggregate with several inner
      exceptions is not split: the context carries the first inner exception
      and is not cancelled. */
  lemma AggregateUnconfiguredKeepsFirst(env: Env, s: State, agg: Exn)
    requires Ready(s) && s.ctx.exception == Some(agg) && agg.isAggregate && |agg.inners| >= 2
    requires !env.configured
    ensures RunTyped(env, HandleAggregateExceptionsPlugin, s) == s.(ctx := s.ctx.(exception := Some(agg.inners[0])))
  {
  }

  /** The plugin types that never cancel an error event without request info
      and never replace its exception when that is not an aggregate. */
  predicate Harmless(t: PluginType) {
    !t.SimpleErrorPlugin?
  }

  /** A registration list the default pipeline fits: only harmless type
      registrations, and at most one of them for the error plugin. */
  predicate HarmlessList(regs: seq<Registration>) {
    && (forall x :: x in regs ==> x.target.Typed? && Harmless(x.target.pluginType))
    && (forall i, j :: (0 <= i < |regs| && 0 <= j < |regs| && regs[i].target == Typed(ErrorPlugin)
                        && regs[j].target == Typed(ErrorPlugin)) ==> i == j)
  }

  predicate HasErrorPlugin(regs: seq<Registration>) {
    exists x :: x in regs && x.target == Typed(ErrorPlugin)
  }

  /** The state a plain exception's run keeps: not cancelled, an error event
      without request info, the same non-aggregate exception, and not yet
      marked while an error plugin is still to come. */
  predicate Calm(s: State, e: Exn, remaining: seq<Registration>) {
    && !s.ctx.cancel
    && s.ctx.exception == Some(e) && !e.isAggregate
    && s.ctx.ev.eventType.Error?
    && RequestKey !in s.ctx.ev.data
    && (HasErrorPlugin(remaining) ==> !IsProcessed(DataOf(s.world.dicts, e)))
  }

  /** Dictionaries other than `e`'s are untouched. */
  ghost predicate OthersUnchanged(before: map<ExnId, DataDict>, after: map<ExnId, DataDict>, e: Exn) {
    forall id :: id != e.id ==> (id in after <==> id in before) && (id in before ==> after[id] == before[id])
  }

  lemma {:induction false} CalmStep(env: Env, regs: seq<Registration>, s: State, e: Exn)
    requires Ready(s) && regs != [] && forall x :: x in regs ==> x in s.world.plugins.regs
    requires HarmlessList(regs) && RequestKey !in env.defaultData
    requires Calm(s, e, regs)
    ensures Calm(Step(env, regs[0], s).1, e, regs[1..])
    ensures OthersUnchanged(s.world.dicts, Step(env, regs[0], s).1.world.dicts, e)
    ensures |Step(env, regs[0], s).1.world.queue| == |s.world.queue|
  {
    var reg := regs[0];
    assert reg in regs;
    var t := reg.target.pluginType;
    var (ok, plugins) := Materialize(s.world.plugins, reg);
    var m := s.(world := s.world.(plugins := plugins));
    if HasErrorPlugin(regs[1..]) {
      var x :| x in regs[1..] && x.target == Typed(ErrorPlugin);
      var j :| 0 <= j < |regs[1..]| && regs[1..][j] == x;
      assert regs[j + 1] == x;
      assert t != ErrorPlugin;
      assert HasErrorPlugin(regs);
    }
    if ok {
      var r := RunTyped(env, t, m);
      assert Step(env, reg, s).1 == r;
      match t
      case ConfigurationDefaultsPlugin =>
        assert RequestKey !in r.ctx.ev.data;
      case ErrorPlugin =>
        assert HasErrorPlugin(regs);
        assert !HasErrorPlugin(regs[1..]);
      case SetEnvironmentUserPlugin =>
        assert RequestKey !in r.ctx.ev.data;
      case EnvironmentInfoPlugin =>
        assert RequestKey !in r.ctx.ev.data;
      case CancelSessionsWithNoUserPlugin =>
        assert !CancelsSession(m.ctx.ev);
      case IgnoreUserAgentPlugin =>
        assert !IsBotRequest(m.ctx.ev, env.botPatterns);
      case _ =>
    }
  }

  /** A calm run over a harmless list ends calm: nothing cancels, only the
      exception's own dictionary may change, and nothing is queued. */
  lemma {:induction false} CalmRun(env: Env, regs: seq<Registration>, s: State, e: Exn)
    requires Ready(s) && forall x :: x in regs ==> x in s.world.plugins.regs
    requires HarmlessList(regs) && RequestKey !in env.defaultData
    requires Calm(s, e, regs)
    ensures !RunPlugins(env, regs, s).ctx.cancel
    ensures RunPlugins(env, regs, s).ctx.ev.eventType.Error?
    ensures OthersUnchanged(s.world.dicts, RunPlugins(env, regs, s).world.dicts, e)
    ensures |RunPlugins(env, regs, s).world.queue| == |s.world.queue|
    decreases |regs|
  {
    if regs != [] {
      CalmStep(env, regs, s, e);
      var next := Step(env, regs[0], s).1;
      assert forall x :: x in regs[1..] ==> x in regs;
      assert HarmlessList(regs[1..]) by {
        forall i, j | 0 <= i < |regs[1..]| && 0 <= j < |regs[1..]| && regs[1..][i].target == Typed(ErrorPlugin)
                      && regs[1..][j].target == Typed(ErrorPlugin)
          ensures i == j
        {
          assert regs[i + 1] == regs[1..][i] && regs[j + 1] == regs[1..][j];
        }
      }
      CalmRun(env, regs[1..], next, e);
    }
  }

  /** On a configured client whose registrations form a harmless list, an
      unmarked non-aggregate exception is queued as exactly one error event,
      and only its own dictionary may change. */
  lemma PlainExceptionIsQueued(env: Env, w: World, e: Exn)
    requires Wf(w.plugins) && HarmlessList(w.plugins.regs) && RequestKey !in env.defaultData
    requires env.configured && !e.isAggregate && !IsProcessed(DataOf(w.dicts, e))
    ensures |Submit(env, w, e).queue| == |w.queue| + 1
    ensures Submit(env, w, e).queue[|w.queue|].eventType.Error?
    ensures OthersUnchanged(w.dicts, Submit(env, w, e).dicts, e)
  {
    var s := State(ExceptionContext(e), w);
    CalmRun(env, w.plugins.regs, s, e);
  }

  /** Submitting unmarked non-aggregate exceptions with distinct identities
      queues exactly one event per exception. */
  lemma {:induction false} PlainExceptionsAreQueued(env: Env, w: World, es: seq<Exn>)
    requires Wf(w.plugins) && HarmlessList(w.plugins.regs) && RequestKey !in env.defaultData
    requires env.configured
    requires forall i :: 0 <= i < |es| ==> !es[i].isAggregate && !IsProcessed(DataOf(w.dicts, es[i]))
    requires forall i, j :: 0 <= i < j < |es| ==> es[i].id != es[j].id
    ensures |SubmitAll(env, w, es).queue| == |w.queue| + |es|
    decreases |es|
  {
    if es != [] {
      var next := Submit(env, w, es[0]);
      PlainExceptionIsQueued(env, w, es[0]);
      forall i | 0 <= i < |es[1..]| ensures !es[1..][i].isAggregate && !IsProcessed(DataOf(next.dicts, es[1..][i])) {
        assert es[1..][i] == es[i + 1];
        assert es[i + 1].id != es[0].id;
        assert DataOf(next.dicts, es[i + 1]) == DataOf(w.dicts, es[i + 1]);
      }
      forall i, j | 0 <= i < j < |es[1..]| ensures es[1..][i].id != es[1..][j].id {
        assert es[1..][i] == es[i + 1] && es[1..][j] == es[j + 1];
      }
      PlainExceptionsAreQueued(env, next, es[1..]);
    }
  }

  /** On a configured client an aggregate with several inner exceptions is
      cancelled and each inner exception is queued as its own event. */
  lemma AggregateFansOut(env: Env, s: State, agg: Exn)
    requires Ready(s) && HarmlessList(s.world.plugins.regs) && RequestKey !in env.defaultData
    requires env.configured
    requires s.ctx.exception == Some(agg) && agg.isAggregate && |agg.inners| >= 2
    requires forall i :: 0 <= i < |agg.inners| ==>
               !agg.inners[i].isAggregate && !IsProcessed(DataOf(s.world.dicts, agg.inners[i]))
    requires forall i, j :: 0 <= i < j < |agg.inners| ==> agg.inners[i].id != agg.inners[j].id
    ensures RunTyped(env, HandleAggregateExceptionsPlugin, s).ctx.cancel
    ensures |RunTyped(env, HandleAggregateExceptionsPlugin, s).world.queue| == |s.world.queue| + |agg.inners|
  {
    PlainExceptionsAreQueued(env, s.world, agg.inners);
  }

  // ---------------------------------------------------------------------
  // Reference ids

  /** With no plugin registered an error event keeps its missing reference
      id; with the reference-id plugin registered it gets one. */
  lemma ReferenceIdOnlyWhenEnabled(env: Env, s: State)
    requires Ready(s) && s.ctx.ev == NewEvent(Error) && !s.ctx.cancel
    requires TypeRegistration(ReferenceIdPlugin, 0) in s.world.plugins.regs
    ensures RunPlugins(env, [], s).ctx.ev.referenceId == None
    ensures RunPlugins(env, [TypeRegistration(ReferenceIdPlugin, 0)], s).ctx.ev.referenceId.Some?
  {
    var reg := TypeRegistration(ReferenceIdPlugin, 0);
    var (ok, plugins) := Materialize(s.world.plugins, reg);
    assert ok;
    assert !HasReferenceId(s.ctx.ev);
    var next := RunTyped(env, ReferenceIdPlugin, s.(world := s.world.(plugins := plugins)));
    assert next.ctx.ev.referenceId == Some(Generated(s.world.nextSerial));
    assert Step(env, reg, s) == (true, next);
    assert RunPlugins(env, [reg], s) == RunPlugins(env, [], next);
  }

  // ---------------------------------------------------------------------
  // Lazy lifecycle of the counting test plugin

  /** Running the counting plugin's registration constructs its instance on
      first use and counts one run. */
  lemma CounterStep(env: Env, reg: Registration, s: State)
    requires Ready(s) && reg in s.world.plugins.regs && reg.target == Typed(CounterTestPlugin)
    ensures var p := s.world.plugins;
            var (ran, r) := Step(env, reg, s);
            ran && r.world.plugins.regs == p.regs
            && r.world.plugins.constructed == p.constructed + {reg.key}
            && r.world.plugins.counters == Counters(p.counters.constructed + (if reg.key in p.constructed then 0 else 1),
                                                    p.counters.runs + 1, p.counters.disposed)
  {
    var m := Materialize(s.world.plugins, reg);
    assert m.1.constructed == s.world.plugins.constructed + {reg.key};
  }

  /** Adding the counting plugin twice, running every registration twice and
      removing the plugin twice constructs it once, runs it twice and
      disposes it once. */
  lemma CounterPluginLifecycle(env: Env, w: World, ev: Event, defaultPriority: int)
    requires w.plugins == PluginState([], {}, Counters(0, 0, 0))
    ensures var reg := TypeRegistration(CounterTestPlugin, defaultPriority);
            var p1 := AddPlugin(AddPlugin(w.plugins, reg), reg);
            p1.regs == [reg]
            && var s0 := State(Ctx(ev, false, None), w.(plugins := p1));
               var s1 := Step(env, reg, s0).1;
               var s2 := Step(env, reg, State(Ctx(ev, false, None), s1.world)).1;
               var p2 := RemovePlugin(RemovePlugin(s2.world.plugins, reg.key), reg.key);
               p2.counters == Counters(1, 2, 1) && p2.regs == []
  {
    var reg := TypeRegistration(CounterTestPlugin, defaultPriority);
    var p0 := AddPlugin(w.plugins, reg);
    assert p0.regs == [reg];
    AddTwiceIsOnce([], reg);
    var p1 := AddPlugin(p0, reg);
    assert p1.regs == [reg];
    var s0 := State(Ctx(ev, false, None), w.(plugins := p1));
    assert p1.constructed == {} && p1.counters == Counters(0, 0, 0);
    var m1 := Materialize(p1, reg);
    assert m1.0 && m1.1.counters == Counters(1, 0, 0);
    var s1 := Step(env, reg, s0).1;
    assert s1 == RunTyped(env, CounterTestPlugin, s0.(world := s0.world.(plugins := m1.1)));
    assert s1.world.plugins.counters == Counters(1, 1, 0);
    assert reg.key in s1.world.plugins.constructed;
    var m2 := Materialize(s1.world.plugins, reg);
    assert m2 == (true, s1.world.plugins);
    var s1' := State(Ctx(ev, false, None), s1.world);
    var s2 := Step(env, reg, s1').1;
    assert s2 == RunTyped(env, CounterTestPlugin, s1'.(world := s1'.world.(plugins := m2.1)));
    assert s2.world.plugins.counters == Counters(1, 2, 0);
    assert reg.key in s2.world.plugins.constructed;
    assert Find(s2.world.plugins.regs, reg.key) == Some(reg);
    RemoveTwiceIsOnce(s2.world.plugins, reg.key);
  }
}
