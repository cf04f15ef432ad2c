# AemContext: configuration merger and test lifecycle

This project models the two pieces of logic in `AemContext`, the JUnit rule of the wcm.io AEM mocks. The rule sets up a mocked AEM context (a Sling resource resolver) for each unit test.

- **Activator configuration merger** (module `ActivatorProps`). The rule builds the OSGi configuration of Sling's Resource Resolver Factory Activator. It first puts the AEM 6 defaults into an empty map, one put after another, and then puts every entry of the caller's map on top. The key `resource.resolver.virtual` is put twice, so the model keeps the later value, the scalar `"302"`. Values are a sum of the Java types the table uses: `String`, `Boolean`, `Integer` and `String[]`.
- **Lifecycle dispatcher** (modules `Lifecycle` and `AemJunit`).
  - The constructor picks the resolver types. It uses the default type when none are given, and the given ones otherwise.
  - It then picks a strategy:
    - With exactly one type, it sets that type at once and uses a single-run rule: `before()` runs, then the test, then `after()`.
    - With more types, it uses a rule that repeats the test once per type, in order. Each cycle first switches to its type.
  - `before()` is the beforeSetUp callback, the engine's `setUp`, then the afterSetUp callback. `after()` is the same shape for teardown.
  - A null callback does nothing.
  - A callback that throws becomes a failure. Its message is the slot's prefix followed by the original message, and its cause is the original failure.
  - Failures of `setUp` and `tearDown` themselves are passed on unwrapped.
  - Every failure ends the run.

`Lifecycle` describes a run as a list of calls. `RunCalls` performs them in order and stops at the first failure. It yields the events that happened, the outcome, and the resolver type left set. The class `AemJunit.AemContext` holds the rule's state: its final fields, the current resolver type, and a `trace` of events. Its methods do the work step by step, and each is proved to do exactly what `RunCalls` says for its call list (the twostate predicate `Ran`). The lemmas in `Lifecycle` prove the following about `RunCalls`:

- the order of events;
- that a failure aborts the run;
- the wrapped messages;
- the type switching of both strategies.

Foreign code is passed in as parameters:

- the four callbacks, each `Option<Behaviour>`;
- the mock engine's `setUp` and `tearDown`.

A `Behaviour` maps the context's current resolver type to `Success` or `Failure(error)`.

## Model

| member | source | states |
|---|---|---|
| ActivatorProps.DefaultTable | aem-mock/src/main/java/io/wcm/testing/mock/aem/junit/AemContext.java:205-237 | in the finished default table, `resource.resolver.virtual` holds the scalar "302" |
| ActivatorProps.DefaultProps | aem-mock/src/main/java/io/wcm/testing/mock/aem/junit/AemContext.java:205-237 | the sixteen puts into an empty map, in source order, give exactly the default table; the second put of `resource.resolver.virtual` replaces the `["/:/"]` list with "302" |
| ActivatorProps.Merged | aem-mock/src/main/java/io/wcm/testing/mock/aem/junit/AemContext.java:204-244 | merged keys are the default keys plus the custom keys; a custom value wins whole; a default the caller does not override keeps its value; a null custom map gives the default table exactly |
| ActivatorProps.PutAll | aem-mock/src/main/java/io/wcm/testing/mock/aem/junit/AemContext.java:239-241 | `putAll` as a loop over the custom keys: the result has the keys of both maps, the custom value for every custom key, the old value for every other key |
| ActivatorProps.MergeWithAemDefault | aem-mock/src/main/java/io/wcm/testing/mock/aem/junit/AemContext.java:204-244 | the imperative merger (puts, then `putAll` only when the custom map is not null) has the key union, custom-wins and defaults-kept properties, and equals `Merged` |
| ActivatorProps.UntouchedDefaultsSurvive | aem-mock/src/main/java/io/wcm/testing/mock/aem/junit/AemContext.java:215-223 | whatever the custom map, if it leaves `resource.resolver.virtual` alone the merged value is "302" and never the list put first |
| Lifecycle.EffectiveTypes | aem-mock/src/main/java/io/wcm/testing/mock/aem/junit/AemContext.java:147-154 | null or empty types give `[DEFAULT_RESOURCERESOLVER_TYPE]`, given types are kept unchanged, and the result is never empty |
| Lifecycle.StrategyFor | aem-mock/src/main/java/io/wcm/testing/mock/aem/junit/AemContext.java:156-194 | the single-run rule exactly when there is one type (both directions), the repeated rule otherwise |
| Lifecycle.Wrap | aem-mock/src/main/java/io/wcm/testing/mock/aem/junit/AemContext.java:256-257 | the wrapping exception's cause is the original, and its message is the slot prefix followed by the original message, of exactly the combined length |
| Lifecycle.Prefix | aem-mock/src/main/java/io/wcm/testing/mock/aem/junit/AemContext.java:257-290 | defines the four message prefixes: "Before setup failed: " (line 257), "After setup failed: " (line 268), "Before teardown failed: " (line 279), "After teardown failed: " (line 290) |
| Lifecycle.PrefixLettersIdentifySlot | aem-mock/src/main/java/io/wcm/testing/mock/aem/junit/AemContext.java:257-290 | the four prefixes differ in their first, seventh or eighth letter, so a prefix determines its slot |
| Lifecycle.RunCall | aem-mock/src/main/java/io/wcm/testing/mock/aem/junit/AemContext.java:158-190 | defines one step: a type switch, a callback (null does nothing, success leaves its event, a throw is wrapped as in lines 251-293), setUp or tearDown (outcome passed on as is), or the test body |
| Lifecycle.RunCallShape | aem-mock/src/main/java/io/wcm/testing/mock/aem/junit/AemContext.java:158-190 | one step leaves at most one event, a failing step always leaves its own event, and only a type switch changes the current type |
| Lifecycle.Then | aem-mock/src/main/java/io/wcm/testing/mock/aem/junit/AemContext.java:161-171 | defines sequencing: once a step has thrown, Java skips the rest, so a failed first run is the result; otherwise the events are concatenated and the second run's outcome and type are kept |
| Lifecycle.ThenKeepsFirst | aem-mock/src/main/java/io/wcm/testing/mock/aem/junit/AemContext.java:161-171 | the first run's events stay at the front, the combination fails exactly when either part fails, and a failed first run is the whole result |
| Lifecycle.RunCalls | aem-mock/src/main/java/io/wcm/testing/mock/aem/junit/AemContext.java:161-190 | defines a run: the steps in order, each only while every earlier one completed normally |
| Lifecycle.RunCallsBounds | aem-mock/src/main/java/io/wcm/testing/mock/aem/junit/AemContext.java:161-190 | a run leaves at most one event per step, and a failed run leaves at least one event |
| Lifecycle.FailedRunStoppedAtStep | aem-mock/src/main/java/io/wcm/testing/mock/aem/junit/AemContext.java:161-190 | a failed run stopped at some step i: the steps before i completed normally, step i failed, and the run is exactly their events followed by step i's event, ending with step i's failure and type |
| Lifecycle.SetUpCalls | aem-mock/src/main/java/io/wcm/testing/mock/aem/junit/AemContext.java:161-165 | defines the steps of `before()`, which are also lines 180-182: beforeSetUp callback, setUp, afterSetUp callback |
| Lifecycle.TearDownCalls | aem-mock/src/main/java/io/wcm/testing/mock/aem/junit/AemContext.java:167-171 | defines the steps of `after()`, which are also lines 188-190: beforeTearDown callback, tearDown, afterTearDown callback |
| Lifecycle.SingleCalls | aem-mock/src/main/java/io/wcm/testing/mock/aem/junit/AemContext.java:156-172 | defines one test under the single-run rule: the steps of `before()`, the test body, the steps of `after()` |
| Lifecycle.CycleCalls | aem-mock/src/main/java/io/wcm/testing/mock/aem/junit/AemContext.java:176-192 | one cycle of the repeated rule has eight steps; the first switches to the cycle's type (line 179), and no other step switches the type |
| Lifecycle.RepeatedCalls | aem-mock/src/main/java/io/wcm/testing/mock/aem/junit/AemContext.java:193-194 | defines one test under the repeated rule: the cycles of the types, in the order of the stored array |
| Lifecycle.TestCalls | aem-mock/src/main/java/io/wcm/testing/mock/aem/junit/AemContext.java:156-194 | defines the steps of one test under each strategy: the single-run steps, or the repeated rule over the stored types |
| Lifecycle.RepeatedCallsSwitchInOrder | aem-mock/src/main/java/io/wcm/testing/mock/aem/junit/AemContext.java:193-194 | the repeated rule has eight steps per type, and the cycle for the i-th type starts by switching to that type |
| Lifecycle.AbsentHookIsNoop | aem-mock/src/main/java/io/wcm/testing/mock/aem/junit/AemContext.java:252-259 | a null callback adds no event, cannot fail and leaves the rest of the run unchanged |
| Lifecycle.HookFailureAborts | aem-mock/src/main/java/io/wcm/testing/mock/aem/junit/AemContext.java:251-293 | a callback that throws e ends the run after its own event with the failure (slot prefix + e's message, cause e); no later step runs |
| Lifecycle.EngineFailureUnwrapped | aem-mock/src/main/java/io/wcm/testing/mock/aem/junit/AemContext.java:163-169 | a failing setUp or tearDown ends the run with its own failure, unwrapped |
| Lifecycle.WrappedSlotRecoverable | aem-mock/src/main/java/io/wcm/testing/mock/aem/junit/AemContext.java:251-293 | the four prefixes are distinct: a wrapped message determines both its slot and the original message |
| Lifecycle.BeforeSetUpFailureSkipsAll | aem-mock/src/main/java/io/wcm/testing/mock/aem/junit/AemContext.java:159-172 | a failing beforeSetUp callback ends a single run at once with "Before setup failed: " + message; setUp, the test and the whole teardown never run |
| Lifecycle.SetUpFailureUnwrapped | aem-mock/src/main/java/io/wcm/testing/mock/aem/junit/AemContext.java:161-165 | when setUp fails, `before()` ends with setUp's own failure and the afterSetUp callback never runs |
| Lifecycle.TearDownFailureUnwrapped | aem-mock/src/main/java/io/wcm/testing/mock/aem/junit/AemContext.java:167-171 | when tearDown fails, `after()` ends with tearDown's own failure and the afterTearDown callback never runs |
| Lifecycle.SetUpOrder | aem-mock/src/main/java/io/wcm/testing/mock/aem/junit/AemContext.java:161-165 | when the setup callbacks that are present and setUp complete normally (whatever the teardown steps would do), `before()` produces the beforeSetUp callback (if present), setUp, then the afterSetUp callback (if present), and succeeds |
| Lifecycle.TearDownOrder | aem-mock/src/main/java/io/wcm/testing/mock/aem/junit/AemContext.java:167-171 | when the teardown callbacks that are present and tearDown complete normally (whatever the setup steps would do), `after()` produces the beforeTearDown callback (if present), tearDown, then the afterTearDown callback (if present), and succeeds |
| Lifecycle.SingleRunOrder | aem-mock/src/main/java/io/wcm/testing/mock/aem/junit/AemContext.java:156-172 | when nothing fails, a single run is the setup sequence, the test once, then the teardown sequence, and it succeeds |
| Lifecycle.SingleRunKeepsType | aem-mock/src/main/java/io/wcm/testing/mock/aem/junit/AemContext.java:156-172 | a single run never switches the resolver type: the one set at construction stays |
| Lifecycle.CycleOrder | aem-mock/src/main/java/io/wcm/testing/mock/aem/junit/AemContext.java:176-192 | when nothing fails, a cycle is: switch to its type, the setup sequence, the test, the teardown sequence; the type stays set |
| Lifecycle.CycleEventsSelectType | aem-mock/src/main/java/io/wcm/testing/mock/aem/junit/AemContext.java:178-190 | in a cycle in which nothing fails, the type is switched exactly once, to the cycle's own type, and the test runs exactly once |
| Lifecycle.RepeatedRunOrder | aem-mock/src/main/java/io/wcm/testing/mock/aem/junit/AemContext.java:176-194 | when nothing fails for any type, the repeated rule runs the cycles of the types in the order given and leaves the last type set |
| Lifecycle.RepeatedEventsSelectTypes | aem-mock/src/main/java/io/wcm/testing/mock/aem/junit/AemContext.java:193-194 | when nothing fails, the repeated rule switches to exactly the given types, in the order supplied, and runs the test once per type |
| Lifecycle.SingleRunBodyAtMostOnce | aem-mock/src/main/java/io/wcm/testing/mock/aem/junit/AemContext.java:156-172 | whatever fails, a single run runs the test at most once, and exactly once when it succeeds |
| Lifecycle.CycleSelectsType | aem-mock/src/main/java/io/wcm/testing/mock/aem/junit/AemContext.java:176-192 | whatever fails, a cycle switches the type exactly once, to its own type, and runs the test at most once, exactly once when it succeeds |
| Lifecycle.RepeatedSelectsTypes | aem-mock/src/main/java/io/wcm/testing/mock/aem/junit/AemContext.java:176-194 | whatever fails, the repeated rule switches to a prefix of the given types, in order, and runs the test at most once per type it switched to (so at most once per given type); when it succeeds, it switched to all of them and ran the test once each |
| Lifecycle.RepeatedFailureStopsAtCycle | aem-mock/src/main/java/io/wcm/testing/mock/aem/junit/AemContext.java:176-194 | a failed repeated run failed in some cycle k: the cycles before k completed, cycle k failed, and nothing after it ran |
| Lifecycle.TwoTypesWithoutCallbacks | aem-mock/src/main/java/io/wcm/testing/mock/aem/junit/AemContext.java:176-194 | two types, no callbacks, an engine that never fails: switch to a, setUp, test, tearDown, then the same for b, ending with b set |
| Lifecycle.AfterSetUpBoom | aem-mock/src/main/java/io/wcm/testing/mock/aem/junit/AemContext.java:262-271 | an afterSetUp callback throwing "boom" ends the single run with "After setup failed: boom" caused by the original; the test and teardown never run |
| AemJunit.AemContext.constructor | aem-mock/src/main/java/io/wcm/testing/mock/aem/junit/AemContext.java:133-196 | keeps the callbacks, stores the merged configuration, stores the effective types and picks the strategy from them; with one type that type is set once, with more nothing is set yet |
| AemJunit.AemContext.SetResourceResolverType | aem-mock/src/main/java/io/wcm/testing/mock/aem/junit/AemContext.java:158 | the context's resolver type becomes t, recorded as one event |
| AemJunit.AemContext.SetUp | aem-mock/src/main/java/io/wcm/testing/mock/aem/junit/AemContext.java:163 | the engine's setUp runs at the current type and its outcome is returned as is |
| AemJunit.AemContext.TearDown | aem-mock/src/main/java/io/wcm/testing/mock/aem/junit/AemContext.java:169 | the engine's tearDown runs at the current type and its outcome is returned as is |
| AemJunit.AemContext.ExecuteCallback | aem-mock/src/main/java/io/wcm/testing/mock/aem/junit/AemContext.java:251-293 | the execute...Callback helpers: null does nothing, a callback that throws is wrapped with its slot's prefix, as `RunCall` says |
| AemJunit.AemContext.Before | aem-mock/src/main/java/io/wcm/testing/mock/aem/junit/AemContext.java:161-165 | performs the setup sequence, stopping at the first failure, with trace, outcome and type as `RunCalls` gives them |
| AemJunit.AemContext.After | aem-mock/src/main/java/io/wcm/testing/mock/aem/junit/AemContext.java:167-171 | performs the teardown sequence, stopping at the first failure, with trace, outcome and type as `RunCalls` gives them |
| AemJunit.AemContext.ParameterizedSetUp | aem-mock/src/main/java/io/wcm/testing/mock/aem/junit/AemContext.java:176-184 | switches to the given type, then performs the setup sequence |
| AemJunit.AemContext.ParameterizedTearDown | aem-mock/src/main/java/io/wcm/testing/mock/aem/junit/AemContext.java:185-192 | performs the teardown sequence and leaves the type unchanged |
| AemJunit.AemContext.EvaluateSingle | aem-mock/src/main/java/io/wcm/testing/mock/aem/junit/AemContext.java:156-172 | one test under the single-run rule: `before()`, then the test and `after()` only if `before()` succeeded |
| AemJunit.AemContext.EvaluateCycle | aem-mock/src/main/java/io/wcm/testing/mock/aem/junit/AemContext.java:176-192 | one cycle of the repeated rule: the setup callback, then the test and the teardown callback only if setup succeeded |
| AemJunit.AemContext.EvaluateRepeated | aem-mock/src/main/java/io/wcm/testing/mock/aem/junit/AemContext.java:193-194 | one test under the repeated rule: a loop over the stored types in order, one cycle each, stopping at the first failed cycle |
| AemJunit.AemContext.Evaluate | aem-mock/src/main/java/io/wcm/testing/mock/aem/junit/AemContext.java:156-194 | one test under the strategy the constructor chose: exactly the steps `TestCalls` gives for the stored strategy and types |

## Left out

- JUnit plumbing: `apply`, `Statement`, `Description` and the `ExternalResource` base class (lines 159 and 246-249). The model keeps only the order the rules impose. The methods `Evaluate`, `EvaluateSingle`, `BodyThenAfter` and `BodyThenParameterizedTearDown` stand in for the statements the rules build.
- The test body is the event `Body`, and it always completes normally. The model therefore does not capture a teardown that runs after a failing test.
- `ListGenerator` is not part of this model. The repeated rule is an in-order loop over the types with one setup, test and teardown cycle per type, which ends at the first failure.
- `AemContextImpl.setUp`, `tearDown` and `setResourceResolverFactoryActivatorProps`, and `MockSling`, are not part of this model.
  - setUp and tearDown are behaviours that may fail.
  - The merged configuration is stored in the field `activatorProps`.
  - `setResourceResolverType` only records the type.
- Behaviours (callbacks, setUp, tearDown) depend only on the context's current resolver type. The rest of the context state they could read or change is not modelled.
- The public convenience constructors (lines 66-110) are not separate members. Each forwards null for the callbacks and properties it does not take, which is the full constructor called with `None` in those places.
- Java object details are left out. A throwable is reduced to its message and cause chain, so how `getMessage()` handles null is not modelled. Also left out: `HashMap` iteration order, array identity, and null values inside the custom map or values of types other than the four in `Value`.
- `ResourceResolverType` and `MockSling.DEFAULT_RESOURCERESOLVER_TYPE` come from the Sling mocks and are not part of this model. The model names five resolver kinds after that enumeration and takes `ResourceResolverMock` as the default. No proved property depends on which kind is the default.
- Null entries in the resolver-type array are not modelled: `ResolverType` has no null. The source passes a null single entry to `setResourceResolverType` (line 158), and with two or more types `ImmutableList.copyOf` throws a NullPointerException from the constructor on a null entry (line 193); neither is modelled.
- Integer defaults (`-1`, `1024000`) are unbounded `int`. Both fit the Java `Integer` range, so no wrap-around arises.
