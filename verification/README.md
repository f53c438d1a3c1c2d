# JmxStormReporter lifecycle and option wiring

A Dafny model of Apache Storm's `JmxStormReporter`. This metrics2 reporter exposes a Codahale
`MetricRegistry` over JMX. The reporter holds one nullable handle to a Codahale `JmxReporter`
sink, and that handle starts out null.

- `prepare` resolves four optional settings from the reporter-specific configuration: duration unit,
  rate unit, JMX domain (key `"jmx.domain"`) and metric filter.
- It hands each setting to the `JmxReporter.Builder` only when the setting resolved to a value, so an
  absent setting leaves the library's default in place.
- It then builds the sink and stores it, replacing any earlier handle.
- `start` and `stop` delegate to the sink when the handle is set. Otherwise they throw
  `IllegalStateException`.
- `stop` does not clear the handle.

Modules:

- `Wrappers`: `Option` (Java `null`) and `Result` (a call that throws).
- `Config`: configuration maps, `Map.get` and `TimeUnit`.
- `JmxBackend`: the Codahale boundary. A builder is a record of optional fields, where `None`
  means the library default. A sink is its options plus the start/stop calls delegated to it.
  `BackendDefaults` supplies the library's default values as a parameter.
- `JmxStormReporter`: the reporter's state (`Reporter(handle: Option<JmxSink>)`), `JMX_DOMAIN`,
  `getMetricsJmxDomain`, `prepare`, `start` and `stop`.
- `Lifecycle`: a single caller's sequence of calls on one reporter, each handled as the reporter's
  code handles it. A thrown exception leaves the reporter unchanged, and the sinks that a `prepare`
  overwrote are kept in the state they were left in. This module proves the guard and handle properties for all call sequences.

The resolvers whose bodies are not part of this model are fields of a `Resolvers` record. These are
`ClientMetricsUtils.getMetricsDurationUnit`, `ClientMetricsUtils.getMetricsRateUnit`,
`ScheduledStormReporter.getMetricsFilter` and `ObjectReader.getString`. `Prepare` takes that record
as a parameter. Every property holds for whatever those functions return, except
`DomainIsConfiguredString` and `DomainOnlyScenario`, which state their assumptions about the
resolvers as preconditions.

Behaviour the model keeps from the code:

- The filter is resolved from the reporter configuration, not from the process-wide `stormConf`.
- A second `prepare` rebuilds the sink and does not fail. It overwrites the handle without stopping
  the sink it replaces, so a started sink that is replaced stays started. The `Lifecycle` module
  keeps such replaced sinks as the run's `retired` sinks.
- `stop` keeps the handle, so there is no terminal stopped state and `start` after `stop` succeeds.
- The domain is whatever `ObjectReader.getString` returns, and the code does not reject an empty
  string.

## Model

| member | source | states |
|---|---|---|
| Config.Get | storm-client/src/jvm/org/apache/storm/metrics2/reporters/JmxStormReporter.java:31 | `reporterConf.get(key)` is null exactly when the key is missing or mapped to null; otherwise it is the stored value |
| JmxBackend.ForRegistry | storm-client/src/jvm/org/apache/storm/metrics2/reporters/JmxStormReporter.java:37 | a new builder is bound to the registry and leaves every option at the library default |
| JmxBackend.ConvertDurationsTo | storm-client/src/jvm/org/apache/storm/metrics2/reporters/JmxStormReporter.java:41 | sets the duration unit and leaves every other builder option unchanged |
| JmxBackend.ConvertRatesTo | storm-client/src/jvm/org/apache/storm/metrics2/reporters/JmxStormReporter.java:46 | sets the rate unit and leaves every other builder option unchanged |
| JmxBackend.InDomain | storm-client/src/jvm/org/apache/storm/metrics2/reporters/JmxStormReporter.java:51 | sets the domain and leaves every other builder option unchanged |
| JmxBackend.WithFilter | storm-client/src/jvm/org/apache/storm/metrics2/reporters/JmxStormReporter.java:56 | sets the filter and leaves every other builder option unchanged |
| JmxBackend.Build | storm-client/src/jvm/org/apache/storm/metrics2/reporters/JmxStormReporter.java:64 | the built sink carries the builder's options and has not yet been started or stopped |
| JmxBackend.StartSink | storm-client/src/jvm/org/apache/storm/metrics2/reporters/JmxStormReporter.java:71 | starting the sink keeps its options and appends one start to its calls |
| JmxBackend.StopSink | storm-client/src/jvm/org/apache/storm/metrics2/reporters/JmxStormReporter.java:81 | stopping the sink keeps its options and appends one stop to its calls |
| JmxStormReporter.Create | storm-client/src/jvm/org/apache/storm/metrics2/reporters/JmxStormReporter.java:28 | a freshly constructed reporter has a null sink handle |
| JmxStormReporter.GetMetricsJmxDomain | storm-client/src/jvm/org/apache/storm/metrics2/reporters/JmxStormReporter.java:26-32 | the domain is `getString` with a null fallback, applied to the `"jmx.domain"` entry when that entry is present and non-null, and to null when it is missing or mapped to null |
| JmxStormReporter.ConfiguredBuilder | storm-client/src/jvm/org/apache/storm/metrics2/reporters/JmxStormReporter.java:37-57 | the builder handed to `build` is bound to the registry, and its duration unit, rate unit, domain and filter are exactly the resolved values, so a value is set only when one was resolved and is otherwise left unset |
| JmxStormReporter.Prepare | storm-client/src/jvm/org/apache/storm/metrics2/reporters/JmxStormReporter.java:35-65 | after prepare the handle is set to a newly built sink; the sink's registry is the given one and its duration unit, rate unit, domain and filter are exactly the values resolved from the reporter configuration, with null meaning unset |
| JmxStormReporter.Start | storm-client/src/jvm/org/apache/storm/metrics2/reporters/JmxStormReporter.java:67-75 | start succeeds if and only if the handle is set; it then starts the same sink, and otherwise it throws IllegalState with the "start without preparing" message |
| JmxStormReporter.Stop | storm-client/src/jvm/org/apache/storm/metrics2/reporters/JmxStormReporter.java:77-85 | stop succeeds if and only if the handle is set; it then stops the same sink and keeps the handle, and otherwise it throws IllegalState with the "stop without preparing" message |
| JmxStormReporter.FreshReporterRefusesStartAndStop | storm-client/src/jvm/org/apache/storm/metrics2/reporters/JmxStormReporter.java:28-85 | on a fresh reporter both start and stop fail with invalid-state errors, and the two messages differ |
| JmxStormReporter.PreparedSinkUsesResolvedOrDefault | storm-client/src/jvm/org/apache/storm/metrics2/reporters/JmxStormReporter.java:39-57 | each option the built sink uses is the resolved value when there is one and the library default otherwise |
| JmxStormReporter.DomainReadsOnlyJmxDomainKey | storm-client/src/jvm/org/apache/storm/metrics2/reporters/JmxStormReporter.java:30-32 | two reporter configurations that agree on `"jmx.domain"` yield the same domain |
| JmxStormReporter.DomainIsConfiguredString | storm-client/src/jvm/org/apache/storm/metrics2/reporters/JmxStormReporter.java:26-32 | with a string reader that returns its default on null and passes strings through, the domain is null when `"jmx.domain"` is missing or mapped to null, and is the configured string when it holds a string; other value types are not covered |
| JmxStormReporter.PrepareIgnoresStormConfAndPriorState | storm-client/src/jvm/org/apache/storm/metrics2/reporters/JmxStormReporter.java:35-64 | the reporter prepare produces does not depend on `stormConf` or on the reporter's earlier handle |
| JmxStormReporter.StartAfterStopSucceeds | storm-client/src/jvm/org/apache/storm/metrics2/reporters/JmxStormReporter.java:68-85 | after a successful stop, start still passes the guard and starts the same sink again |
| JmxStormReporter.DomainOnlyScenario | storm-client/src/jvm/org/apache/storm/metrics2/reporters/JmxStormReporter.java:39-57 | with only `"jmx.domain" = "app.metrics"` configured, the sink uses that domain and the library defaults for units and filter |
| Lifecycle.UnpreparedCallsAllThrow | storm-client/src/jvm/org/apache/storm/metrics2/reporters/JmxStormReporter.java:68-85 | on an unprepared reporter, every start and stop in any sequence of calls without a prepare throws its invalid-state error and changes nothing |
| Lifecycle.PreparedCallsAllReturn | storm-client/src/jvm/org/apache/storm/metrics2/reporters/JmxStormReporter.java:64-85 | once the handle is set, every later call returns normally and the handle stays set |
| Lifecycle.CallsAreDelegated | storm-client/src/jvm/org/apache/storm/metrics2/reporters/JmxStormReporter.java:68-85 | without a new prepare, a prepared reporter keeps its sink and passes every start and stop on to it, in order |
| Lifecycle.HandleIsLastPreparedSink | storm-client/src/jvm/org/apache/storm/metrics2/reporters/JmxStormReporter.java:35-85 | after any history, the handle holds the sink configured by the last prepare, and exactly the later starts and stops have been made on that sink |
| Lifecycle.ReturnsIffPrepared | storm-client/src/jvm/org/apache/storm/metrics2/reporters/JmxStormReporter.java:64-85 | a call returns normally if and only if the handle was already set, the call is a prepare, or an earlier call was a prepare; otherwise it throws its invalid-state error |
| Lifecycle.FreshReporterGuard | storm-client/src/jvm/org/apache/storm/metrics2/reporters/JmxStormReporter.java:28-85 | from a fresh reporter, a start or stop succeeds exactly when some prepare came before it |
| Lifecycle.PrepareThenDelegate | storm-client/src/jvm/org/apache/storm/metrics2/reporters/JmxStormReporter.java:64-85 | after a prepare followed by any starts and stops, every call returns and the handle is the newly configured sink with exactly those later calls on it |
| Lifecycle.RestartAfterStop | storm-client/src/jvm/org/apache/storm/metrics2/reporters/JmxStormReporter.java:64-85 | the sequence prepare, start, stop, start returns normally throughout, and the sink sees start, stop, start |
| Lifecycle.RePrepareReplacesSink | storm-client/src/jvm/org/apache/storm/metrics2/reporters/JmxStormReporter.java:64 | after any history, a prepare returns normally and leaves a newly built sink from the new configuration |
| Lifecycle.UnpreparedCallsRetireNothing | storm-client/src/jvm/org/apache/storm/metrics2/reporters/JmxStormReporter.java:67-85 | start and stop add nothing to the retired sinks; a prepared reporter keeps a sink with the same options, and an unprepared one stays unprepared |
| Lifecycle.StepKeepsOrRetiresSink | storm-client/src/jvm/org/apache/storm/metrics2/reporters/JmxStormReporter.java:64-85 | on a prepared reporter, a call either keeps the sink and records one start or stop on it without retiring anything, or retires the old sink and installs one on which nothing has been called |
| Lifecycle.PrepareRetiresCurrentSink | storm-client/src/jvm/org/apache/storm/metrics2/reporters/JmxStormReporter.java:64 | a prepare adds the sink the handle held, in the state it was left in, to the retired sinks; the handle then holds the newly configured sink, on which exactly the later starts and stops have been made |
| Lifecycle.ReplacedSinkIsLeftStarted | storm-client/src/jvm/org/apache/storm/metrics2/reporters/JmxStormReporter.java:64-85 | after prepare, start, prepare, stop, the first sink has been started and never stopped, and the stop reached only the second sink |

## Left out

- Codahale `JmxReporter` internals are not modelled. This covers MBean registration and what `start`/`stop` do inside JMX. A sink is its options plus the record of calls delegated to it.
- The library's default values are not modelled. They appear as the `BackendDefaults` parameter.
- The bodies of `ClientMetricsUtils.getMetricsDurationUnit`, `ClientMetricsUtils.getMetricsRateUnit`, `ScheduledStormReporter.getMetricsFilter` and `ObjectReader.getString` are not part of this model. They are total functions in the `Resolvers` parameter. The model adds no parsing rules for them.
- Exceptions these resolvers or the builder might throw out of `prepare` are not modelled. The resolvers return a value or null.
- DomainIsConfiguredString: assumes, as a precondition, how `ObjectReader.getString` treats null and string values, because its body is not part of this model. It says nothing about other value types, for which the real reader throws.
- DomainOnlyScenario: assumes, as preconditions, four things about the resolvers, because their bodies are not part of this model. `ObjectReader.getString` returns its default on null and passes strings through. The duration-unit, rate-unit and filter resolvers each find no value in the scenario's configuration.
- The builder options the reporter deliberately does not expose are not modelled. These are the object-name factory, the MBean server, and per-metric duration and rate units.
- Logging calls are not modelled.
- JmxStormReporter.START_WITHOUT_PREPARE and STOP_WITHOUT_PREPARE use the simple name `JmxStormReporter`. A subclass would report its own name through `getClass().getSimpleName()`.
- Concurrent calls on one reporter are not modelled. The handle field is neither volatile nor locked, so the model assumes one caller.
- A driver over several reporters is not modelled, because none appears in this code.
