/**
 * What an AEM context does around each test: the optional user callbacks in
 * their four slots, the mock engine's setUp and tearDown, and (when several
 * resource resolver types are requested) the switch of type before each
 * setup. A run is described by the list of calls it makes; `RunCalls`
 * performs them in order and stops at the first failure.
 */
module Lifecycle {
  import opened Wrappers

  /** Sling mock's resource resolver types (the enum is not part of this model). */
  datatype ResolverType = ResourceResolverMock | JcrMock | JcrJackrabbit | JcrOak | NoResourceResolver

  /** `MockSling.DEFAULT_RESOURCERESOLVER_TYPE` */
  const DefaultResolverType := ResourceResolverMock

  /** A Java throwable, reduced to its message and its cause chain. */
  datatype Error = Error(message: string, cause: Option<Error>)

  /** How a call into foreign code ends: normally, or by throwing `error`. */
  datatype Outcome = Success | Failure(error: Error)

  /**
   * What a callback or an engine operation does when invoked on the context;
   * it may depend on the resolver type the context currently has.
   */
  type Behaviour = Option<ResolverType> -> Outcome

  /** The four callback slots. */
  datatype Slot = BeforeSetUp | AfterSetUp | BeforeTearDown | AfterTearDown

  /** The message prefix of the RuntimeException that wraps a failure in `slot`. */
  function Prefix(slot: Slot): (p: string)
  {
    match slot
    case BeforeSetUp => "Before setup failed: "
    case AfterSetUp => "After setup failed: "
    case BeforeTearDown => "Before teardown failed: "
    case AfterTearDown => "After teardown failed: "
  }

  /** The four callbacks; None is a null reference. */
  datatype Callbacks = Callbacks(
    beforeSetUp: Option<Behaviour>,
    afterSetUp: Option<Behaviour>,
    beforeTearDown: Option<Behaviour>,
    afterTearDown: Option<Behaviour>)
  {
    function At(slot: Slot): Option<Behaviour>
    {
      match slot
      case BeforeSetUp => beforeSetUp
      case AfterSetUp => afterSetUp
      case BeforeTearDown => beforeTearDown
      case AfterTearDown => afterTearDown
    }
  }

  /** The mock engine's own setUp and tearDown, which may throw. */
  datatype Engine = Engine(setUp: Behaviour, tearDown: Behaviour)

  /** Run each test once, or once per resolver type. */
  datatype Strategy = Single | Repeated

  /**
   * The resolver types a context keeps: the default type when none (null or
   * an empty array) are given, the given array otherwise. Never empty.
   */
  function EffectiveTypes(given: Option<seq<ResolverType>>): (types: seq<ResolverType>)
    ensures |types| >= 1
    ensures given.Some? && given.value != [] ==> types == given.value
    ensures given.None? || given.value == [] ==> types == [DefaultResolverType]
  {
    if given.None? || given.value == [] then [DefaultResolverType] else given.value
  }

  /** Exactly one type selects the single-run strategy, more select repetition. */
  function StrategyFor(types: seq<ResolverType>): (s: Strategy)
    ensures s == Single <==> |types| == 1
  {
    if |types| == 1 then Single else Repeated
  }

  /** What a run observably does, in order. */
  datatype Event = SetType(t: ResolverType) | Hook(slot: Slot) | SetUp | Body | TearDown

  /** One step of a run. */
  datatype Call = SetTypeCall(t: ResolverType) | HookCall(slot: Slot) | SetUpCall | BodyCall | TearDownCall

  /** The events of a run, how it ended, and the resolver type it left set. */
  datatype Run = Run(events: seq<Event>, outcome: Outcome, current: Option<ResolverType>)

  /**
   * The RuntimeException raised for a failure `e` in `slot`: its message is
   * the slot's prefix followed by e's message, and its cause is e.
   */
  function Wrap(slot: Slot, e: Error): (w: Error)
    ensures w.cause == Some(e)
    ensures |w.message| == |Prefix(slot)| + |e.message|
    ensures w.message[..|Prefix(slot)|] == Prefix(slot)
    ensures w.message[|Prefix(slot)|..] == e.message
  {
    Error(Prefix(slot) + e.message, Some(e))
  }

  /** Performs one call with `cur` as the context's resolver type. */
  function RunCall(cb: Callbacks, en: Engine, c: Call, cur: Option<ResolverType>): Run
  {
    match c
    case SetTypeCall(t) => Run([SetType(t)], Success, Some(t))
    case HookCall(slot) =>
      (match cb.At(slot)
       case None => Run([], Success, cur)
       case Some(hook) =>
         (match hook(cur)
          case Success => Run([Hook(slot)], Success, cur)
          case Failure(e) => Run([Hook(slot)], Failure(Wrap(slot, e)), cur)))
    case SetUpCall => Run([SetUp], en.setUp(cur), cur)
    case BodyCall => Run([Body], Success, cur)
    case TearDownCall => Run([TearDown], en.tearDown(cur), cur)
  }

  /** `first`, and when it succeeded, `rest` after it. */
  function Then(first: Run, rest: Run): Run
  {
    if first.outcome.Failure? then first
    else Run(first.events + rest.events, rest.outcome, rest.current)
  }

  /** Performs the calls in order; the first failure ends the run. */
  function RunCalls(cb: Callbacks, en: Engine, calls: seq<Call>, cur: Option<ResolverType>): Run
    decreases |calls|
  {
    if calls == [] then Run([], Success, cur)
    else
      var first := RunCall(cb, en, calls[0], cur);
      Then(first, RunCalls(cb, en, calls[1..], first.current))
  }

  /** before(): beforeSetUp callback, setUp, afterSetUp callback. */
  const SetUpCalls: seq<Call> := [HookCall(BeforeSetUp), SetUpCall, HookCall(AfterSetUp)]

  /** after(): beforeTearDown callback, tearDown, afterTearDown callback. */
  const TearDownCalls: seq<Call> := [HookCall(BeforeTearDown), TearDownCall, HookCall(AfterTearDown)]

  /** One test under the single-run strategy. */
  const SingleCalls: seq<Call> := SetUpCalls + [BodyCall] + TearDownCalls

  /** One cycle of the repeated strategy: set the type, then as for a single run. */
  function CycleCalls(t: ResolverType): (calls: seq<Call>)
    ensures |calls| == 8 && calls[0] == SetTypeCall(t)
    ensures forall i :: 1 <= i < |calls| ==> !calls[i].SetTypeCall?
  {
    [SetTypeCall(t)] + SingleCalls
  }

  /** One test under the repeated strategy: a cycle per type, in the given order. */
  function RepeatedCalls(types: seq<ResolverType>): seq<Call>
    decreases |types|
  {
    if types == [] then [] else RepeatedCalls(types[..|types| - 1]) + CycleCalls(types[|types| - 1])
  }

  /** The calls one test makes under a strategy. */
  function TestCalls(strategy: Strategy, types: seq<ResolverType>): seq<Call>
  {
    match strategy
    case Single => SingleCalls
    case Repeated => RepeatedCalls(types)
  }

  // ---------------------------------------------------------------------------
  // Reference views of a run

  /** The resolver types a run switched to, in order. */
  function SetTypesOf(events: seq<Event>): seq<ResolverType>
    decreases |events|
  {
    if events == [] then []
    else (if events[0].SetType? then [events[0].t] else []) + SetTypesOf(events[1..])
  }

  /** How often the test body ran. */
  function BodyCount(events: seq<Event>): nat
    decreases |events|
  {
    if events == [] then 0
    else (if events[0] == Body then 1 else 0) + BodyCount(events[1..])
  }

  /** The event a present callback leaves; an absent one leaves none. */
  function HookEvents(cb: Callbacks, slot: Slot): seq<Event>
  {
    if cb.At(slot).Some? then [Hook(slot)] else []
  }

  function SetUpEvents(cb: Callbacks): seq<Event>
  {
    HookEvents(cb, BeforeSetUp) + [SetUp] + HookEvents(cb, AfterSetUp)
  }

  function TearDownEvents(cb: Callbacks): seq<Event>
  {
    HookEvents(cb, BeforeTearDown) + [TearDown] + HookEvents(cb, AfterTearDown)
  }

  /** The setup callbacks that are present and the engine's setUp complete normally at `cur`. */
  ghost predicate SetUpSucceeds(cb: Callbacks, en: Engine, cur: Option<ResolverType>)
  {
    && (cb.beforeSetUp.Some? ==> cb.beforeSetUp.value(cur) == Success)
    && en.setUp(cur) == Success
    && (cb.afterSetUp.Some? ==> cb.afterSetUp.value(cur) == Success)
  }

  /** The teardown callbacks that are present and the engine's tearDown complete normally at `cur`. */
  ghost predicate TearDownSucceeds(cb: Callbacks, en: Engine, cur: Option<ResolverType>)
  {
    && (cb.beforeTearDown.Some? ==> cb.beforeTearDown.value(cur) == Success)
    && en.tearDown(cur) == Success
    && (cb.afterTearDown.Some? ==> cb.afterTearDown.value(cur) == Success)
  }

  /** Every present callback and both engine operations complete normally at `cur`. */
  ghost predicate Succeeds(cb: Callbacks, en: Engine, cur: Option<ResolverType>)
  {
    SetUpSucceeds(cb, en, cur) && TearDownSucceeds(cb, en, cur)
  }

  // ---------------------------------------------------------------------------
  // Lemmas

  /**
   * One call leaves at most one event, a failing call always leaves its own,
   * and only a switch of type changes the current type.
   */
  lemma {:induction false} RunCallShape(cb: Callbacks, en: Engine, c: Call, cur: Option<ResolverType>)
    ensures |RunCall(cb, en, c, cur).events| <= 1
    ensures RunCall(cb, en, c, cur).outcome.Failure? ==> |RunCall(cb, en, c, cur).events| == 1
    ensures RunCall(cb, en, c, cur).current == if c.SetTypeCall? then Some(c.t) else cur
  {
  }

  /** A run leaves at most one event per call, and a failed run has recorded the step that failed. */
  lemma {:induction false} RunCallsBounds(cb: Callbacks, en: Engine, calls: seq<Call>, cur: Option<ResolverType>)
    ensures |RunCalls(cb, en, calls, cur).events| <= |calls|
    ensures RunCalls(cb, en, calls, cur).outcome.Failure? ==> |RunCalls(cb, en, calls, cur).events| >= 1
    decreases |calls|
  {
    if calls != [] {
      var first := RunCall(cb, en, calls[0], cur);
      RunCallShape(cb, en, calls[0], cur);
      RunCallsBounds(cb, en, calls[1..], first.current);
    }
  }

  /**
   * Step i is where a run stopped: every call before it completed normally,
   * call i failed, and the run is exactly those calls' events followed by
   * call i's event, with call i's failure.
   */
  predicate StoppedAt(cb: Callbacks, en: Engine, calls: seq<Call>, cur: Option<ResolverType>, i: nat)
    requires i < |calls|
  {
    var prefix := RunCalls(cb, en, calls[..i], cur);
    var step := RunCall(cb, en, calls[i], prefix.current);
    prefix.outcome == Success && step.outcome.Failure?
    && RunCalls(cb, en, calls, cur) == Run(prefix.events + step.events, step.outcome, step.current)
  }

  /** A failed run stopped at some step: the steps before it completed, and that step's failure closes the trace. */
  lemma {:induction false} FailedRunStoppedAtStep(cb: Callbacks, en: Engine, calls: seq<Call>, cur: Option<ResolverType>)
    requires RunCalls(cb, en, calls, cur).outcome.Failure?
    ensures exists i: nat :: i < |calls| && StoppedAt(cb, en, calls, cur, i)
    decreases |calls|
  {
    assert calls != [];
    var first := RunCall(cb, en, calls[0], cur);
    if first.outcome.Failure? {
      StoppedAtFirst(cb, en, calls, cur);
    } else {
      FailedRunStoppedAtStep(cb, en, calls[1..], first.current);
      var j: nat :| j < |calls[1..]| && StoppedAt(cb, en, calls[1..], first.current, j);
      StoppedLater(cb, en, calls, cur, j);
    }
  }

  /** A run whose first call fails stopped at step 0. */
  lemma {:induction false} StoppedAtFirst(cb: Callbacks, en: Engine, calls: seq<Call>, cur: Option<ResolverType>)
    requires calls != [] && RunCall(cb, en, calls[0], cur).outcome.Failure?
    ensures StoppedAt(cb, en, calls, cur, 0)
  {
    var first := RunCall(cb, en, calls[0], cur);
    assert RunCalls(cb, en, calls, cur) == first;
    assert calls[..0] == [];
    assert first.events == [] + first.events;
  }

  /** When the first call completes and the rest stopped at step j, the whole run stopped at step j + 1. */
  lemma {:induction false} StoppedLater(cb: Callbacks, en: Engine, calls: seq<Call>, cur: Option<ResolverType>, j: nat)
    requires calls != [] && RunCall(cb, en, calls[0], cur).outcome == Success
    requires j < |calls| - 1 && StoppedAt(cb, en, calls[1..], RunCall(cb, en, calls[0], cur).current, j)
    ensures StoppedAt(cb, en, calls, cur, j + 1)
  {
    var first := RunCall(cb, en, calls[0], cur);
    var tail := calls[1..];
    var rest := RunCalls(cb, en, tail, first.current);
    assert RunCalls(cb, en, calls, cur) == Run(first.events + rest.events, rest.outcome, rest.current);
    var inner := RunCalls(cb, en, tail[..j], first.current);
    var step := RunCall(cb, en, tail[j], inner.current);
    assert rest == Run(inner.events + step.events, step.outcome, step.current);
    assert calls[..j + 1] == [calls[0]] + tail[..j];
    RunCallsSingleton(cb, en, calls[0], tail[..j], cur);
    var prefix := RunCalls(cb, en, calls[..j + 1], cur);
    assert prefix == Run(first.events + inner.events, Success, inner.current);
    assert calls[j + 1] == tail[j];
    assert first.events + (inner.events + step.events) == prefix.events + step.events;
  }

  /** Combining runs keeps the first run's events at the front, and a failed first run is the result. */
  lemma {:induction false} ThenKeepsFirst(first: Run, rest: Run)
    ensures first.events <= Then(first, rest).events
    ensures Then(first, rest).outcome.Failure? <==> first.outcome.Failure? || rest.outcome.Failure?
    ensures first.outcome.Failure? ==> Then(first, rest) == first
  {
  }

  lemma {:induction false} ThenAssociative(a: Run, b: Run, c: Run)
    ensures Then(Then(a, b), c) == Then(a, Then(b, c))
  {
    if a.outcome.Success? && b.outcome.Success? {
      assert (a.events + b.events) + c.events == a.events + (b.events + c.events);
    }
  }

  /** Running `a + b` is running `a` and, only if it succeeded, `b` after it. */
  lemma {:induction false} RunCallsAppend(cb: Callbacks, en: Engine, a: seq<Call>, b: seq<Call>, cur: Option<ResolverType>)
    ensures RunCalls(cb, en, a + b, cur)
         == Then(RunCalls(cb, en, a, cur), RunCalls(cb, en, b, RunCalls(cb, en, a, cur).current))
    decreases |a|
  {
    if a == [] {
      assert a + b == b;
    } else {
      var first := RunCall(cb, en, a[0], cur);
      assert (a + b)[0] == a[0];
      assert (a + b)[1..] == a[1..] + b;
      RunCallsAppend(cb, en, a[1..], b, first.current);
      var ra := RunCalls(cb, en, a[1..], first.current);
      ThenAssociative(first, ra, RunCalls(cb, en, b, ra.current));
    }
  }

  lemma {:induction false} RunCallsSingleton(cb: Callbacks, en: Engine, c: Call, rest: seq<Call>, cur: Option<ResolverType>)
    ensures RunCalls(cb, en, [c] + rest, cur)
         == Then(RunCall(cb, en, c, cur), RunCalls(cb, en, rest, RunCall(cb, en, c, cur).current))
  {
    assert ([c] + rest)[0] == c;
    assert ([c] + rest)[1..] == rest;
  }

  /** A single run is its setup part, the body, then the teardown part, each only if the one before succeeded. */
  lemma {:induction false} SingleInParts(cb: Callbacks, en: Engine, cur: Option<ResolverType>)
    ensures var s := RunCalls(cb, en, SetUpCalls, cur);
            RunCalls(cb, en, SingleCalls, cur)
            == Then(s, Then(Run([Body], Success, s.current), RunCalls(cb, en, TearDownCalls, s.current)))
  {
    var s := RunCalls(cb, en, SetUpCalls, cur);
    assert SingleCalls == SetUpCalls + ([BodyCall] + TearDownCalls);
    RunCallsAppend(cb, en, SetUpCalls, [BodyCall] + TearDownCalls, cur);
    RunCallsSingleton(cb, en, BodyCall, TearDownCalls, s.current);
  }

  /** Performing one call is that call's run. */
  lemma {:induction false} RunCallsOne(cb: Callbacks, en: Engine, c: Call, cur: Option<ResolverType>)
    ensures RunCalls(cb, en, [c], cur) == RunCall(cb, en, c, cur)
  {
    assert [c][1..] == [];
    var first := RunCall(cb, en, c, cur);
    assert first.events + [] == first.events;
  }

  /** Three calls that leave the type alone run one after the other, each only if the one before succeeded. */
  lemma {:induction false} ThreeCalls(cb: Callbacks, en: Engine, a: Call, b: Call, c: Call, cur: Option<ResolverType>)
    requires !a.SetTypeCall? && !b.SetTypeCall?
    ensures RunCalls(cb, en, [a, b, c], cur)
         == Then(RunCalls(cb, en, [a], cur), Then(RunCalls(cb, en, [b], cur), RunCalls(cb, en, [c], cur)))
  {
    assert [a] + [b, c] == [a, b, c] && [b] + [c] == [b, c];
    assert RunCall(cb, en, a, cur).current == cur && RunCall(cb, en, b, cur).current == cur;
    RunCallsSingleton(cb, en, a, [b, c], cur);
    RunCallsSingleton(cb, en, b, [c], cur);
    RunCallsOne(cb, en, a, cur);
    RunCallsOne(cb, en, b, cur);
  }

  /** A single run is its setup part, then, if that succeeded, the body and the teardown part. */
  lemma {:induction false} SingleSplit(cb: Callbacks, en: Engine, cur: Option<ResolverType>)
    ensures var s := RunCalls(cb, en, SetUpCalls, cur);
            RunCalls(cb, en, SingleCalls, cur) == Then(s, RunCalls(cb, en, [BodyCall] + TearDownCalls, s.current))
  {
    assert SingleCalls == SetUpCalls + ([BodyCall] + TearDownCalls);
    RunCallsAppend(cb, en, SetUpCalls, [BodyCall] + TearDownCalls, cur);
  }

  /** A cycle is its setup part, then, if that succeeded, the body and the teardown part. */
  lemma {:induction false} CycleSplit(cb: Callbacks, en: Engine, t: ResolverType, cur: Option<ResolverType>)
    ensures var s := RunCalls(cb, en, [SetTypeCall(t)] + SetUpCalls, cur);
            RunCalls(cb, en, CycleCalls(t), cur) == Then(s, RunCalls(cb, en, [BodyCall] + TearDownCalls, s.current))
  {
    assert CycleCalls(t) == ([SetTypeCall(t)] + SetUpCalls) + ([BodyCall] + TearDownCalls);
    RunCallsAppend(cb, en, [SetTypeCall(t)] + SetUpCalls, [BodyCall] + TearDownCalls, cur);
  }

  /** An absent callback adds no event and cannot fail: the run goes on as if it were not there. */
  lemma {:induction false} AbsentHookIsNoop(cb: Callbacks, en: Engine, slot: Slot, rest: seq<Call>, cur: Option<ResolverType>)
    requires cb.At(slot).None?
    ensures RunCalls(cb, en, [HookCall(slot)] + rest, cur) == RunCalls(cb, en, rest, cur)
  {
    RunCallsSingleton(cb, en, HookCall(slot), rest, cur);
  }

  /**
   * A callback that throws e ends the run with one more event, its own, and
   * a failure whose message is the slot's prefix followed by e's message and
   * whose cause is e; nothing after it runs.
   */
  lemma {:induction false} HookFailureAborts(cb: Callbacks, en: Engine, slot: Slot, rest: seq<Call>, cur: Option<ResolverType>, e: Error)
    requires cb.At(slot).Some? && cb.At(slot).value(cur) == Failure(e)
    ensures RunCalls(cb, en, [HookCall(slot)] + rest, cur)
         == Run([Hook(slot)], Failure(Wrap(slot, e)), cur)
  {
    RunCallsSingleton(cb, en, HookCall(slot), rest, cur);
  }

  /** A failure of the engine's setUp or tearDown ends the run and is passed on unwrapped. */
  lemma {:induction false} EngineFailureUnwrapped(cb: Callbacks, en: Engine, c: Call, rest: seq<Call>, cur: Option<ResolverType>, e: Error)
    requires (c == SetUpCall && en.setUp(cur) == Failure(e)) || (c == TearDownCall && en.tearDown(cur) == Failure(e))
    ensures RunCalls(cb, en, [c] + rest, cur)
         == Run([if c == SetUpCall then SetUp else TearDown], Failure(e), cur)
  {
    RunCallsSingleton(cb, en, c, rest, cur);
  }

  /** The four prefixes tell the slots apart: a wrapped message names its slot and keeps the original message. */
  lemma {:induction false} WrappedSlotRecoverable(s1: Slot, m1: string, s2: Slot, m2: string)
    requires Prefix(s1) + m1 == Prefix(s2) + m2
    ensures s1 == s2 && m1 == m2
  {
    var p1, p2 := Prefix(s1), Prefix(s2);
    var w := p1 + m1;
    assert w[0] == p1[0] && w[0] == p2[0];
    assert w[6] == p1[6] && w[6] == p2[6];
    assert w[7] == p1[7] && w[7] == p2[7];
    PrefixLettersIdentifySlot(s1, s2);
    assert m1 == w[|p1|..];
  }

  /** The first, seventh and eighth letters of a prefix already identify its slot. */
  lemma {:induction false} PrefixLettersIdentifySlot(s1: Slot, s2: Slot)
    requires Prefix(s1)[0] == Prefix(s2)[0] && Prefix(s1)[6] == Prefix(s2)[6] && Prefix(s1)[7] == Prefix(s2)[7]
    ensures s1 == s2
  {
  }

  /**
   * A failing beforeSetUp callback ends a single run at once: setUp, the
   * afterSetUp callback, the body and the whole teardown never run, and the
   * failure reads "Before setup failed: " followed by the original message.
   */
  lemma {:induction false} BeforeSetUpFailureSkipsAll(cb: Callbacks, en: Engine, cur: Option<ResolverType>, e: Error)
    requires cb.beforeSetUp.Some? && cb.beforeSetUp.value(cur) == Failure(e)
    ensures RunCalls(cb, en, SingleCalls, cur)
         == Run([Hook(BeforeSetUp)], Failure(Error("Before setup failed: " + e.message, Some(e))), cur)
  {
    assert SingleCalls == [HookCall(BeforeSetUp)] + ([SetUpCall, HookCall(AfterSetUp), BodyCall] + TearDownCalls);
    HookFailureAborts(cb, en, BeforeSetUp, [SetUpCall, HookCall(AfterSetUp), BodyCall] + TearDownCalls, cur, e);
  }

  /** A failing setUp ends before() with its own, unwrapped, failure; the afterSetUp callback never runs. */
  lemma {:induction false} SetUpFailureUnwrapped(cb: Callbacks, en: Engine, cur: Option<ResolverType>, e: Error)
    requires cb.beforeSetUp.Some? ==> cb.beforeSetUp.value(cur) == Success
    requires en.setUp(cur) == Failure(e)
    ensures RunCalls(cb, en, SetUpCalls, cur) == Run(HookEvents(cb, BeforeSetUp) + [SetUp], Failure(e), cur)
  {
    assert SetUpCalls == [HookCall(BeforeSetUp)] + ([SetUpCall] + [HookCall(AfterSetUp)]);
    RunCallsSingleton(cb, en, HookCall(BeforeSetUp), [SetUpCall] + [HookCall(AfterSetUp)], cur);
    EngineFailureUnwrapped(cb, en, SetUpCall, [HookCall(AfterSetUp)], cur, e);
  }

  /** A failing tearDown ends after() with its own, unwrapped, failure; the afterTearDown callback never runs. */
  lemma {:induction false} TearDownFailureUnwrapped(cb: Callbacks, en: Engine, cur: Option<ResolverType>, e: Error)
    requires cb.beforeTearDown.Some? ==> cb.beforeTearDown.value(cur) == Success
    requires en.tearDown(cur) == Failure(e)
    ensures RunCalls(cb, en, TearDownCalls, cur) == Run(HookEvents(cb, BeforeTearDown) + [TearDown], Failure(e), cur)
  {
    assert TearDownCalls == [HookCall(BeforeTearDown)] + ([TearDownCall] + [HookCall(AfterTearDown)]);
    RunCallsSingleton(cb, en, HookCall(BeforeTearDown), [TearDownCall] + [HookCall(AfterTearDown)], cur);
    EngineFailureUnwrapped(cb, en, TearDownCall, [HookCall(AfterTearDown)], cur, e);
  }

  /** When everything succeeds, before() leaves: beforeSetUp callback, setUp, afterSetUp callback. */
  lemma {:induction false} SetUpOrder(cb: Callbacks, en: Engine, cur: Option<ResolverType>)
    requires SetUpSucceeds(cb, en, cur)
    ensures RunCalls(cb, en, SetUpCalls, cur) == Run(SetUpEvents(cb), Success, cur)
  {
    assert SetUpCalls == [HookCall(BeforeSetUp)] + ([SetUpCall] + ([HookCall(AfterSetUp)] + []));
    RunCallsSingleton(cb, en, HookCall(BeforeSetUp), [SetUpCall] + ([HookCall(AfterSetUp)] + []), cur);
    RunCallsSingleton(cb, en, SetUpCall, [HookCall(AfterSetUp)] + [], cur);
    RunCallsSingleton(cb, en, HookCall(AfterSetUp), [], cur);
  }

  /** When everything succeeds, after() leaves: beforeTearDown callback, tearDown, afterTearDown callback. */
  lemma {:induction false} TearDownOrder(cb: Callbacks, en: Engine, cur: Option<ResolverType>)
    requires TearDownSucceeds(cb, en, cur)
    ensures RunCalls(cb, en, TearDownCalls, cur) == Run(TearDownEvents(cb), Success, cur)
  {
    assert TearDownCalls == [HookCall(BeforeTearDown)] + ([TearDownCall] + ([HookCall(AfterTearDown)] + []));
    RunCallsSingleton(cb, en, HookCall(BeforeTearDown), [TearDownCall] + ([HookCall(AfterTearDown)] + []), cur);
    RunCallsSingleton(cb, en, TearDownCall, [HookCall(AfterTearDown)] + [], cur);
    RunCallsSingleton(cb, en, HookCall(AfterTearDown), [], cur);
  }

  /** A single run: the setup sequence, the body once, the teardown sequence. */
  lemma {:induction false} SingleRunOrder(cb: Callbacks, en: Engine, cur: Option<ResolverType>)
    requires Succeeds(cb, en, cur)
    ensures RunCalls(cb, en, SingleCalls, cur)
         == Run(SetUpEvents(cb) + [Body] + TearDownEvents(cb), Success, cur)
    ensures BodyCount(RunCalls(cb, en, SingleCalls, cur).events) == 1
  {
    SingleInParts(cb, en, cur);
    SetUpOrder(cb, en, cur);
    TearDownOrder(cb, en, cur);
    assert SetUpEvents(cb) + [Body] + TearDownEvents(cb) == SetUpEvents(cb) + ([Body] + TearDownEvents(cb));
    SetUpTearDownEventsQuiet(cb);
    SetTypesOfAppend(SetUpEvents(cb) + [Body], TearDownEvents(cb));
    SetTypesOfAppend(SetUpEvents(cb), [Body]);
  }

  lemma {:induction false} SetTypesOfAppend(a: seq<Event>, b: seq<Event>)
    ensures SetTypesOf(a + b) == SetTypesOf(a) + SetTypesOf(b)
    ensures BodyCount(a + b) == BodyCount(a) + BodyCount(b)
    decreases |a|
  {
    if a == [] {
      assert a + b == b;
    } else {
      var ab := a + b;
      assert ab[0] == a[0] && ab[1..] == a[1..] + b;
      SetTypesOfAppend(a[1..], b);
      var head := if a[0].SetType? then [a[0].t] else [];
      assert SetTypesOf(ab) == head + (SetTypesOf(a[1..]) + SetTypesOf(b));
      assert SetTypesOf(a) == head + SetTypesOf(a[1..]);
    }
  }

  /** Under the single-run strategy the resolver type is never switched: it stays the one set at construction. */
  lemma {:induction false} SingleRunKeepsType(cb: Callbacks, en: Engine, cur: Option<ResolverType>)
    ensures RunCalls(cb, en, SingleCalls, cur).current == cur
    ensures SetTypesOf(RunCalls(cb, en, SingleCalls, cur).events) == []
  {
    NoSetTypeCallKeepsType(cb, en, SingleCalls, cur);
  }

  lemma {:induction false} NoSetTypeCallKeepsType(cb: Callbacks, en: Engine, calls: seq<Call>, cur: Option<ResolverType>)
    requires forall i :: 0 <= i < |calls| ==> !calls[i].SetTypeCall?
    ensures RunCalls(cb, en, calls, cur).current == cur
    ensures SetTypesOf(RunCalls(cb, en, calls, cur).events) == []
    decreases |calls|
  {
    if calls != [] {
      var first := RunCall(cb, en, calls[0], cur);
      assert first.current == cur && SetTypesOf(first.events) == [];
      NoSetTypeCallKeepsType(cb, en, calls[1..], cur);
      SetTypesOfAppend(first.events, RunCalls(cb, en, calls[1..], cur).events);
    }
  }

  lemma {:induction false} HookEventsQuiet(cb: Callbacks, slot: Slot)
    ensures SetTypesOf(HookEvents(cb, slot)) == [] && BodyCount(HookEvents(cb, slot)) == 0
  {
    if cb.At(slot).Some? {
      assert HookEvents(cb, slot)[1..] == [];
    }
  }

  /** The callbacks and the engine's own steps neither switch the type nor run the body. */
  lemma {:induction false} SetUpTearDownEventsQuiet(cb: Callbacks)
    ensures SetTypesOf(SetUpEvents(cb)) == [] && BodyCount(SetUpEvents(cb)) == 0
    ensures SetTypesOf(TearDownEvents(cb)) == [] && BodyCount(TearDownEvents(cb)) == 0
  {
    HookEventsQuiet(cb, BeforeSetUp);
    HookEventsQuiet(cb, AfterSetUp);
    HookEventsQuiet(cb, BeforeTearDown);
    HookEventsQuiet(cb, AfterTearDown);
    assert SetTypesOf([SetUp]) == [] && BodyCount([SetUp]) == 0;
    assert SetTypesOf([TearDown]) == [] && BodyCount([TearDown]) == 0;
    SetTypesOfAppend(HookEvents(cb, BeforeSetUp) + [SetUp], HookEvents(cb, AfterSetUp));
    SetTypesOfAppend(HookEvents(cb, BeforeSetUp), [SetUp]);
    SetTypesOfAppend(HookEvents(cb, BeforeTearDown) + [TearDown], HookEvents(cb, AfterTearDown));
    SetTypesOfAppend(HookEvents(cb, BeforeTearDown), [TearDown]);
  }

  /** The events of a cycle in which nothing fails. */
  function CycleEvents(cb: Callbacks, t: ResolverType): seq<Event>
  {
    [SetType(t)] + (SetUpEvents(cb) + [Body] + TearDownEvents(cb))
  }

  /** The events of a repeated run in which nothing fails. */
  function RepeatedEvents(cb: Callbacks, types: seq<ResolverType>): seq<Event>
    decreases |types|
  {
    if types == [] then [] else RepeatedEvents(cb, types[..|types| - 1]) + CycleEvents(cb, types[|types| - 1])
  }

  /** A cycle in which nothing fails leaves its events and its type set. */
  lemma {:induction false} CycleOrder(cb: Callbacks, en: Engine, t: ResolverType, cur: Option<ResolverType>)
    requires Succeeds(cb, en, Some(t))
    ensures RunCalls(cb, en, CycleCalls(t), cur) == Run(CycleEvents(cb, t), Success, Some(t))
  {
    RunCallsSingleton(cb, en, SetTypeCall(t), SingleCalls, cur);
    SingleRunOrder(cb, en, Some(t));
  }

  /** A cycle switches to its type once and runs the body once. */
  lemma {:induction false} CycleEventsSelectType(cb: Callbacks, t: ResolverType)
    ensures SetTypesOf(CycleEvents(cb, t)) == [t]
    ensures BodyCount(CycleEvents(cb, t)) == 1
  {
    var su, td := SetUpEvents(cb), TearDownEvents(cb);
    SetUpTearDownEventsQuiet(cb);
    SetTypesOfAppend([SetType(t)], su + [Body] + td);
    SetTypesOfAppend(su + [Body], td);
    SetTypesOfAppend(su, [Body]);
  }

  /**
   * When everything succeeds for every type, the repeated strategy performs
   * the cycles of the types in the order given and leaves the last type set.
   */
  lemma {:induction false} RepeatedRunOrder(cb: Callbacks, en: Engine, types: seq<ResolverType>, cur: Option<ResolverType>)
    requires forall t :: t in types ==> Succeeds(cb, en, Some(t))
    ensures RunCalls(cb, en, RepeatedCalls(types), cur)
         == Run(RepeatedEvents(cb, types), Success, if types == [] then cur else Some(types[|types| - 1]))
    decreases |types|
  {
    if types != [] {
      var init, last := types[..|types| - 1], types[|types| - 1];
      assert forall t :: t in init ==> t in types;
      RepeatedRunOrder(cb, en, init, cur);
      var done := RunCalls(cb, en, RepeatedCalls(init), cur);
      RunCallsAppend(cb, en, RepeatedCalls(init), CycleCalls(last), cur);
      CycleOrder(cb, en, last, done.current);
    }
  }

  /** The repeated strategy switches to the types in the order given and runs the body once per type. */
  lemma {:induction false} RepeatedEventsSelectTypes(cb: Callbacks, types: seq<ResolverType>)
    ensures SetTypesOf(RepeatedEvents(cb, types)) == types
    ensures BodyCount(RepeatedEvents(cb, types)) == |types|
    decreases |types|
  {
    if types != [] {
      var init, last := types[..|types| - 1], types[|types| - 1];
      RepeatedEventsSelectTypes(cb, init);
      CycleEventsSelectType(cb, last);
      SetTypesOfAppend(RepeatedEvents(cb, init), CycleEvents(cb, last));
      assert init + [last] == types;
    }
  }

  lemma {:induction false} NoBodyCallNoBody(cb: Callbacks, en: Engine, calls: seq<Call>, cur: Option<ResolverType>)
    requires forall i :: 0 <= i < |calls| ==> calls[i] != BodyCall
    ensures BodyCount(RunCalls(cb, en, calls, cur).events) == 0
    decreases |calls|
  {
    if calls != [] {
      var first := RunCall(cb, en, calls[0], cur);
      assert BodyCount(first.events) == 0 by {
        if first.events != [] {
          assert first.events[1..] == [];
        }
      }
      NoBodyCallNoBody(cb, en, calls[1..], first.current);
      SetTypesOfAppend(first.events, RunCalls(cb, en, calls[1..], first.current).events);
    }
  }

  /** Whatever fails, a single run runs the test at most once, and exactly once when it succeeds. */
  lemma {:induction false} SingleRunBodyAtMostOnce(cb: Callbacks, en: Engine, cur: Option<ResolverType>)
    ensures BodyCount(RunCalls(cb, en, SingleCalls, cur).events) <= 1
    ensures RunCalls(cb, en, SingleCalls, cur).outcome == Success ==> BodyCount(RunCalls(cb, en, SingleCalls, cur).events) == 1
  {
    var setUp := RunCalls(cb, en, SetUpCalls, cur);
    var tearDown := RunCalls(cb, en, TearDownCalls, setUp.current);
    SingleSplit(cb, en, cur);
    RunCallsSingleton(cb, en, BodyCall, TearDownCalls, setUp.current);
    NoBodyCallNoBody(cb, en, SetUpCalls, cur);
    NoBodyCallNoBody(cb, en, TearDownCalls, setUp.current);
    SetTypesOfAppend([Body], tearDown.events);
    SetTypesOfAppend(setUp.events, [Body] + tearDown.events);
  }

  /** Whatever fails, a cycle switches to its own type exactly once and runs the test at most once, once when it succeeds. */
  lemma {:induction false} CycleSelectsType(cb: Callbacks, en: Engine, t: ResolverType, cur: Option<ResolverType>)
    ensures SetTypesOf(RunCalls(cb, en, CycleCalls(t), cur).events) == [t]
    ensures BodyCount(RunCalls(cb, en, CycleCalls(t), cur).events) <= 1
    ensures RunCalls(cb, en, CycleCalls(t), cur).outcome == Success ==> BodyCount(RunCalls(cb, en, CycleCalls(t), cur).events) == 1
  {
    var single := RunCalls(cb, en, SingleCalls, Some(t));
    RunCallsSingleton(cb, en, SetTypeCall(t), SingleCalls, cur);
    SingleRunKeepsType(cb, en, Some(t));
    SingleRunBodyAtMostOnce(cb, en, Some(t));
    SetTypesOfAppend([SetType(t)], single.events);
  }

  /**
   * Whatever fails, the repeated strategy switches to a prefix of the given
   * types, in order, and runs the test at most once per type switched to; when it
   * succeeds it switched to all of them and ran the test once for each.
   */
  lemma {:induction false} RepeatedSelectsTypes(cb: Callbacks, en: Engine, types: seq<ResolverType>, cur: Option<ResolverType>)
    ensures SetTypesOf(RunCalls(cb, en, RepeatedCalls(types), cur).events) <= types
    ensures BodyCount(RunCalls(cb, en, RepeatedCalls(types), cur).events) <= |types|
    ensures BodyCount(RunCalls(cb, en, RepeatedCalls(types), cur).events)
         <= |SetTypesOf(RunCalls(cb, en, RepeatedCalls(types), cur).events)|
    ensures RunCalls(cb, en, RepeatedCalls(types), cur).outcome == Success ==>
              SetTypesOf(RunCalls(cb, en, RepeatedCalls(types), cur).events) == types
              && BodyCount(RunCalls(cb, en, RepeatedCalls(types), cur).events) == |types|
    decreases |types|
  {
    if types != [] {
      var init, last := types[..|types| - 1], types[|types| - 1];
      var done := RunCalls(cb, en, RepeatedCalls(init), cur);
      var cycle := RunCalls(cb, en, CycleCalls(last), done.current);
      var r := RunCalls(cb, en, RepeatedCalls(types), cur);
      RunCallsAppend(cb, en, RepeatedCalls(init), CycleCalls(last), cur);
      RepeatedSelectsTypes(cb, en, init, cur);
      CycleSelectsType(cb, en, last, done.current);
      ThenSelects(done, cycle, init, last);
      assert r == Then(done, cycle);
    }
  }

  /** One more cycle, run only after the earlier ones succeeded, extends what they selected by its own type. */
  lemma {:induction false} ThenSelects(done: Run, cycle: Run, init: seq<ResolverType>, last: ResolverType)
    requires SetTypesOf(done.events) <= init && BodyCount(done.events) <= |init|
    requires BodyCount(done.events) <= |SetTypesOf(done.events)|
    requires done.outcome == Success ==> SetTypesOf(done.events) == init && BodyCount(done.events) == |init|
    requires SetTypesOf(cycle.events) == [last] && BodyCount(cycle.events) <= 1
    requires cycle.outcome == Success ==> BodyCount(cycle.events) == 1
    ensures SetTypesOf(Then(done, cycle).events) <= init + [last]
    ensures BodyCount(Then(done, cycle).events) <= |init| + 1
    ensures BodyCount(Then(done, cycle).events) <= |SetTypesOf(Then(done, cycle).events)|
    ensures Then(done, cycle).outcome == Success ==>
              SetTypesOf(Then(done, cycle).events) == init + [last] && BodyCount(Then(done, cycle).events) == |init| + 1
  {
    if done.outcome.Success? {
      SetTypesOfAppend(done.events, cycle.events);
    } else {
      assert init <= init + [last];
    }
  }

  /** The repeated strategy's cycles start, in the order given, with a switch to each type. */
  lemma {:induction false} RepeatedCallsSwitchInOrder(types: seq<ResolverType>)
    ensures |RepeatedCalls(types)| == 8 * |types|
    ensures forall i :: 0 <= i < |types| ==> RepeatedCalls(types)[8 * i] == SetTypeCall(types[i])
    decreases |types|
  {
    if types != [] {
      var init, last := types[..|types| - 1], types[|types| - 1];
      RepeatedCallsSwitchInOrder(init);
      assert RepeatedCalls(types) == RepeatedCalls(init) + CycleCalls(last);
      forall i | 0 <= i < |types|
        ensures RepeatedCalls(types)[8 * i] == SetTypeCall(types[i])
      {
        if i < |init| {
          assert RepeatedCalls(types)[8 * i] == RepeatedCalls(init)[8 * i];
        } else {
          assert 8 * i == |RepeatedCalls(init)|;
        }
      }
    }
  }

  lemma {:induction false} RepeatedCallsAppend(a: seq<ResolverType>, b: seq<ResolverType>)
    ensures RepeatedCalls(a + b) == RepeatedCalls(a) + RepeatedCalls(b)
    decreases |b|
  {
    if b == [] {
      assert a + b == a;
    } else {
      var init := b[..|b| - 1];
      assert (a + b)[..|a + b| - 1] == a + init;
      assert (a + b)[|a + b| - 1] == b[|b| - 1];
      RepeatedCallsAppend(a, init);
    }
  }

  /** The run of the first k + 1 cycles is the run of the first k, then, if they succeeded, cycle k. */
  lemma {:induction false} RepeatedStep(cb: Callbacks, en: Engine, types: seq<ResolverType>, k: nat, cur: Option<ResolverType>)
    requires k < |types|
    ensures var done := RunCalls(cb, en, RepeatedCalls(types[..k]), cur);
            RunCalls(cb, en, RepeatedCalls(types[..k + 1]), cur)
            == Then(done, RunCalls(cb, en, CycleCalls(types[k]), done.current))
  {
    assert types[..k + 1][..k] == types[..k];
    RunCallsAppend(cb, en, RepeatedCalls(types[..k]), CycleCalls(types[k]), cur);
  }

  /** Once the cycles for types[..k] have failed, no later cycle runs: the run is the failed one. */
  lemma {:induction false} RepeatedFailedPrefix(cb: Callbacks, en: Engine, types: seq<ResolverType>, k: nat, cur: Option<ResolverType>)
    requires k <= |types|
    requires RunCalls(cb, en, RepeatedCalls(types[..k]), cur).outcome.Failure?
    ensures RunCalls(cb, en, RepeatedCalls(types), cur) == RunCalls(cb, en, RepeatedCalls(types[..k]), cur)
  {
    assert types == types[..k] + types[k..];
    RepeatedCallsAppend(types[..k], types[k..]);
    RunCallsAppend(cb, en, RepeatedCalls(types[..k]), RepeatedCalls(types[k..]), cur);
  }

  /**
   * When the repeated strategy fails, it failed in the cycle of some type k:
   * the cycles before k completed, cycle k is where the failure happened,
   * and no later cycle ran.
   */
  lemma {:induction false} RepeatedFailureStopsAtCycle(cb: Callbacks, en: Engine, types: seq<ResolverType>, cur: Option<ResolverType>)
    requires RunCalls(cb, en, RepeatedCalls(types), cur).outcome.Failure?
    ensures exists k :: 0 <= k < |types| && CompletedThenFailed(cb, en, types, k, cur)
    decreases |types|
  {
    var init, last := types[..|types| - 1], types[|types| - 1];
    var done := RunCalls(cb, en, RepeatedCalls(init), cur);
    RunCallsAppend(cb, en, RepeatedCalls(init), CycleCalls(last), cur);
    if done.outcome.Failure? {
      RepeatedFailureStopsAtCycle(cb, en, init, cur);
      var k :| 0 <= k < |init| && CompletedThenFailed(cb, en, init, k, cur);
      assert init[..k] == types[..k];
      assert CompletedThenFailed(cb, en, types, k, cur);
    } else {
      assert CompletedThenFailed(cb, en, types, |types| - 1, cur);
    }
  }

  /** The cycles for types[..k] all completed, and the cycle for types[k] failed and ended the run. */
  ghost predicate CompletedThenFailed(cb: Callbacks, en: Engine, types: seq<ResolverType>, k: nat, cur: Option<ResolverType>)
    requires k < |types|
  {
    var done := RunCalls(cb, en, RepeatedCalls(types[..k]), cur);
    var failed := RunCalls(cb, en, CycleCalls(types[k]), done.current);
    && done.outcome == Success
    && failed.outcome.Failure?
    && RunCalls(cb, en, RepeatedCalls(types), cur)
       == Run(done.events + failed.events, failed.outcome, failed.current)
  }

  /**
   * Two types and no callbacks, with an engine that never fails: setUp,
   * body and tearDown for the first type, then the same for the second.
   */
  lemma {:induction false} TwoTypesWithoutCallbacks(en: Engine, a: ResolverType, b: ResolverType, cur: Option<ResolverType>)
    requires en.setUp(Some(a)) == Success && en.tearDown(Some(a)) == Success
    requires en.setUp(Some(b)) == Success && en.tearDown(Some(b)) == Success
    ensures var cb := Callbacks(None, None, None, None);
            RunCalls(cb, en, RepeatedCalls([a, b]), cur)
            == Run([SetType(a), SetUp, Body, TearDown, SetType(b), SetUp, Body, TearDown], Success, Some(b))
  {
    var cb := Callbacks(None, None, None, None);
    RepeatedRunOrder(cb, en, [a, b], cur);
    assert [a, b][..1] == [a] && [a][..0] == [];
    assert SetUpEvents(cb) == [SetUp] && TearDownEvents(cb) == [TearDown];
    assert RepeatedEvents(cb, [a]) == RepeatedEvents(cb, []) + CycleEvents(cb, a);
    assert RepeatedEvents(cb, [a, b]) == RepeatedEvents(cb, [a]) + CycleEvents(cb, b);
    assert CycleEvents(cb, a) == [SetType(a), SetUp, Body, TearDown];
    assert CycleEvents(cb, b) == [SetType(b), SetUp, Body, TearDown];
  }

  /**
   * An afterSetUp callback failing with "boom" ends the single run with the
   * failure "After setup failed: boom" caused by the original; tearDown and
   * the body never run.
   */
  lemma {:induction false} AfterSetUpBoom(en: Engine, t: ResolverType)
    requires en.setUp(Some(t)) == Success
    ensures var boom := Error("boom", None);
            var cb := Callbacks(None, Some((_: Option<ResolverType>) => Failure(boom)), None, None);
            RunCalls(cb, en, SingleCalls, Some(t))
            == Run([SetUp, Hook(AfterSetUp)], Failure(Error("After setup failed: boom", Some(boom))), Some(t))
  {
    var boom := Error("boom", None);
    var cb := Callbacks(None, Some((_: Option<ResolverType>) => Failure(boom)), None, None);
    var rest := [BodyCall] + TearDownCalls;
    assert SingleCalls == [HookCall(BeforeSetUp)] + ([SetUpCall] + ([HookCall(AfterSetUp)] + rest));
    AbsentHookIsNoop(cb, en, BeforeSetUp, [SetUpCall] + ([HookCall(AfterSetUp)] + rest), Some(t));
    RunCallsSingleton(cb, en, SetUpCall, [HookCall(AfterSetUp)] + rest, Some(t));
    HookFailureAborts(cb, en, AfterSetUp, rest, Some(t), boom);
  }
}
