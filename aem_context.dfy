/**
 * The AEM context JUnit rule: it keeps the merged activator configuration,
 * the resolver types and the four callbacks, and drives the mock engine's
 * setUp and tearDown with the callbacks around them. The context's observable
 * state is the resolver type it has set and the trace of what it has done.
 */
module AemJunit {
  import opened Wrappers
  import opened ActivatorProps
  import opened Lifecycle

  class AemContext {
    const callbacks: Callbacks
    /** The mock engine behind setUp and tearDown. */
    const engine: Engine
    /** What the constructor passed to setResourceResolverFactoryActivatorProps. */
    const activatorProps: Props
    const resourceResolverTypes: seq<ResolverType>
    /** Which delegate rule the constructor chose. */
    const strategy: Strategy
    /** The type last passed to setResourceResolverType; None before the first. */
    var resourceResolverType: Option<ResolverType>
    /** Everything the context has done, in order. */
    var trace: seq<Event>

    /** Between the two states, the context performed `calls` and they ended with `r`. */
    twostate predicate Ran(calls: seq<Call>, r: Outcome)
      reads this
    {
      var run := RunCalls(callbacks, engine, calls, old(resourceResolverType));
      && trace == old(trace) + run.events
      && r == run.outcome
      && resourceResolverType == run.current
    }

    /**
     * The full constructor. The convenience constructors pass None for the
     * callbacks and properties they do not take.
     */
    constructor (callbacks: Callbacks, engine: Engine, customProps: Option<Props>, types: Option<seq<ResolverType>>)
      ensures this.callbacks == callbacks && this.engine == engine
      ensures activatorProps == Merged(customProps)
      ensures resourceResolverTypes == EffectiveTypes(types)
      ensures strategy == StrategyFor(resourceResolverTypes)
      ensures strategy == Single ==>
                resourceResolverType == Some(resourceResolverTypes[0]) && trace == [SetType(resourceResolverTypes[0])]
      ensures strategy == Repeated ==> resourceResolverType == None && trace == []
    {
      this.callbacks := callbacks;
      this.engine := engine;
      var merged := MergeWithAemDefault(customProps);
      activatorProps := merged;
      var effective: seq<ResolverType>;
      if types.None? || types.value == [] {
        effective := [DefaultResolverType];
      } else {
        effective := types.value;
      }
      resourceResolverTypes := effective;
      strategy := if |effective| == 1 then Single else Repeated;
      resourceResolverType := None;
      trace := [];
      new;
      if strategy == Single {
        SetResourceResolverType(resourceResolverTypes[0]);
      }
    }

    /** Switches the mock engine to type `t`. */
    method SetResourceResolverType(t: ResolverType)
      modifies this`resourceResolverType, this`trace
      ensures resourceResolverType == Some(t)
      ensures trace == old(trace) + [SetType(t)]
    {
      resourceResolverType := Some(t);
      trace := trace + [SetType(t)];
    }

    /** The mock engine's setUp; its failure is not wrapped. */
    method SetUp() returns (r: Outcome)
      modifies this`trace
      ensures Ran([SetUpCall], r)
    {
      trace := trace + [Lifecycle.SetUp];
      r := engine.setUp(resourceResolverType);
      assert [SetUpCall][1..] == [];
    }

    /** The mock engine's tearDown; its failure is not wrapped. */
    method TearDown() returns (r: Outcome)
      modifies this`trace
      ensures Ran([TearDownCall], r)
    {
      trace := trace + [Lifecycle.TearDown];
      r := engine.tearDown(resourceResolverType);
      assert [TearDownCall][1..] == [];
    }

    /**
     * The four execute...Callback helpers: a null callback does nothing; a
     * callback that throws e becomes a failure with the slot's message prefix
     * and cause e.
     */
    method ExecuteCallback(slot: Slot) returns (r: Outcome)
      modifies this`trace
      ensures Ran([HookCall(slot)], r)
    {
      assert [HookCall(slot)][1..] == [];
      match callbacks.At(slot)
      case None =>
        r := Success;
      case Some(callback) =>
        trace := trace + [Hook(slot)];
        var outcome := callback(resourceResolverType);
        match outcome
        case Success =>
          r := Success;
        case Failure(e) =>
          r := Failure(Wrap(slot, e));
    }

    /** The single-run rule's before(). */
    method Before() returns (r: Outcome)
      modifies this`trace
      ensures Ran(SetUpCalls, r)
    {
      ThreeCalls(callbacks, engine, HookCall(BeforeSetUp), SetUpCall, HookCall(AfterSetUp), resourceResolverType);
      r := ExecuteCallback(BeforeSetUp);
      if r.Failure? {
        return;
      }
      r := SetUp();
      if r.Failure? {
        return;
      }
      r := ExecuteCallback(AfterSetUp);
    }

    /** The single-run rule's after(). */
    method After() returns (r: Outcome)
      modifies this`trace
      ensures Ran(TearDownCalls, r)
    {
      ThreeCalls(callbacks, engine, HookCall(BeforeTearDown), TearDownCall, HookCall(AfterTearDown), resourceResolverType);
      r := ExecuteCallback(BeforeTearDown);
      if r.Failure? {
        return;
      }
      r := TearDown();
      if r.Failure? {
        return;
      }
      r := ExecuteCallback(AfterTearDown);
    }

    /** The repeated rule's setup callback for the current type: switch to it, then as before(). */
    method ParameterizedSetUp(t: ResolverType) returns (r: Outcome)
      modifies this`resourceResolverType, this`trace
      ensures Ran([SetTypeCall(t)] + SetUpCalls, r)
    {
      RunCallsSingleton(callbacks, engine, SetTypeCall(t), SetUpCalls, resourceResolverType);
      SetResourceResolverType(t);
      r := Before();
    }

    /** The repeated rule's teardown callback: as after(); the type stays set. */
    method ParameterizedTearDown(t: ResolverType) returns (r: Outcome)
      modifies this`trace
      ensures Ran(TearDownCalls, r)
    {
      r := After();
    }

    /** The test body, which this model takes to complete normally. */
    method RunBody()
      modifies this`trace
      ensures Ran([BodyCall], Success)
    {
      trace := trace + [Body];
      assert [BodyCall][1..] == [];
    }

    /** The single-run rule's statement after before(): the test body, then after(). */
    method BodyThenAfter() returns (r: Outcome)
      modifies this`trace
      ensures Ran([BodyCall] + TearDownCalls, r)
    {
      ghost var t0, cur := trace, resourceResolverType;
      ghost var tearDown := RunCalls(callbacks, engine, TearDownCalls, cur);
      RunCallsSingleton(callbacks, engine, BodyCall, TearDownCalls, cur);
      assert RunCall(callbacks, engine, BodyCall, cur) == Run([Body], Success, cur);
      RunBody();
      r := After();
      assert trace == t0 + ([Body] + tearDown.events);
    }

    /** The repeated rule's cycle after its setup callback: the test body, then the teardown callback. */
    method BodyThenParameterizedTearDown(t: ResolverType) returns (r: Outcome)
      modifies this`trace
      ensures Ran([BodyCall] + TearDownCalls, r)
    {
      ghost var t0, cur := trace, resourceResolverType;
      ghost var tearDown := RunCalls(callbacks, engine, TearDownCalls, cur);
      RunCallsSingleton(callbacks, engine, BodyCall, TearDownCalls, cur);
      assert RunCall(callbacks, engine, BodyCall, cur) == Run([Body], Success, cur);
      RunBody();
      r := ParameterizedTearDown(t);
      assert trace == t0 + ([Body] + tearDown.events);
    }

    /** The single-run rule applied to one test: before(), the body, after(). */
    method EvaluateSingle() returns (r: Outcome)
      modifies this`trace
      ensures Ran(SingleCalls, r)
    {
      ghost var t0, cur := trace, resourceResolverType;
      ghost var setUp := RunCalls(callbacks, engine, SetUpCalls, cur);
      SingleSplit(callbacks, engine, cur);
      r := Before();
      if r.Failure? {
        return;
      }
      assert trace == t0 + setUp.events && resourceResolverType == setUp.current;
      ghost var rest := RunCalls(callbacks, engine, [BodyCall] + TearDownCalls, setUp.current);
      r := BodyThenAfter();
      assert trace == t0 + (setUp.events + rest.events);
    }

    /** One cycle of the repeated rule for type t: its setup callback, the body, its teardown callback. */
    method EvaluateCycle(t: ResolverType) returns (r: Outcome)
      modifies this`resourceResolverType, this`trace
      ensures Ran(CycleCalls(t), r)
    {
      ghost var t0, cur := trace, resourceResolverType;
      ghost var setUp := RunCalls(callbacks, engine, [SetTypeCall(t)] + SetUpCalls, cur);
      CycleSplit(callbacks, engine, t, cur);
      r := ParameterizedSetUp(t);
      if r.Failure? {
        return;
      }
      assert trace == t0 + setUp.events && resourceResolverType == setUp.current;
      ghost var rest := RunCalls(callbacks, engine, [BodyCall] + TearDownCalls, setUp.current);
      r := BodyThenParameterizedTearDown(t);
      assert trace == t0 + (setUp.events + rest.events);
    }

    /** The repeated rule applied to one test: a cycle per type, in order, until one fails. */
    method EvaluateRepeated() returns (r: Outcome)
      modifies this`resourceResolverType, this`trace
      ensures Ran(RepeatedCalls(resourceResolverTypes), r)
    {
      ghost var cur := resourceResolverType;
      var types := resourceResolverTypes;
      var i := 0;
      r := Success;
      while i < |types|
        invariant 0 <= i <= |types|
        invariant r == Success
        invariant Ran(RepeatedCalls(types[..i]), Success)
      {
        ghost var done := RunCalls(callbacks, engine, RepeatedCalls(types[..i]), cur);
        ghost var cycle := RunCalls(callbacks, engine, CycleCalls(types[i]), done.current);
        ghost var next := RunCalls(callbacks, engine, RepeatedCalls(types[..i + 1]), cur);
        RepeatedStep(callbacks, engine, types, i, cur);
        assert next == Run(done.events + cycle.events, cycle.outcome, cycle.current);
        ghost var t1 := trace;
        r := EvaluateCycle(types[i]);
        assert trace == t1 + cycle.events && r == cycle.outcome;
        assert trace == old(trace) + next.events;
        if r.Failure? {
          RepeatedFailedPrefix(callbacks, engine, types, i + 1, cur);
          return;
        }
        i := i + 1;
      }
      assert types[..i] == types;
    }

    /** One application of the rule to a test, with the strategy the constructor chose. */
    method Evaluate() returns (r: Outcome)
      modifies this`resourceResolverType, this`trace
      ensures Ran(TestCalls(strategy, resourceResolverTypes), r)
    {
      if strategy == Single {
        r := EvaluateSingle();
      } else {
        r := EvaluateRepeated();
      }
    }
  }
}
