/** `JmxStormReporter`: a Storm metrics reporter that exposes a Codahale
    metric registry over JMX. Its only state is the nullable handle to the
    built `JmxReporter` sink; `prepare` builds the sink from the
    reporter-specific configuration, and `start`/`stop` delegate to the sink
    when the handle is set and fail with an invalid-state error otherwise. */
module JmxStormReporter {
  import opened Wrappers
  import opened Config
  import opened JmxBackend

  /** Key of the JMX domain in the reporter configuration. */
  const JMX_DOMAIN: string := "jmx.domain"

  /** `getClass().getSimpleName()` for this class. */
  const SIMPLE_NAME: string := "JmxStormReporter"

  const START_WITHOUT_PREPARE: string := "Attempt to start without preparing " + SIMPLE_NAME
  const STOP_WITHOUT_PREPARE: string := "Attempt to stop without preparing " + SIMPLE_NAME

  /** `IllegalStateException` with its message. */
  datatype LifecycleError = IllegalState(message: string)

  /** The option resolvers the reporter calls but whose bodies lie elsewhere:
      `ClientMetricsUtils.getMetricsDurationUnit`, `ClientMetricsUtils.getMetricsRateUnit`,
      `ScheduledStormReporter.getMetricsFilter` (each from a configuration map to a
      nullable value) and `ObjectReader.getString` (from a nullable value and a
      nullable default to a nullable string). */
  datatype Resolvers = Resolvers(
    durationUnit: ConfigMap -> Option<TimeUnit>,
    rateUnit: ConfigMap -> Option<TimeUnit>,
    metricsFilter: ConfigMap -> Option<MetricFilter>,
    getString: (Option<ConfigValue>, Option<string>) -> Option<string>)

  /** What `ObjectReader.getString` is relied on to do when asked for the domain:
      a null value yields the default, and a string value is returned as is. */
  ghost predicate ReadsStrings(getString: (Option<ConfigValue>, Option<string>) -> Option<string>)
  {
    && (forall d :: getString(None, d) == d)
    && (forall s, d :: getString(Some(StrValue(s)), d) == Some(s))
  }

  /** The reporter: `None` is the `null` handle of a reporter not yet prepared. */
  datatype Reporter = Reporter(handle: Option<JmxSink>)

  /** A freshly constructed reporter. */
  function Create(): (r: Reporter)
    ensures r.handle.None?
  {
    Reporter(None)
  }

  /** `getMetricsJmxDomain`: the string under `"jmx.domain"` in the reporter
      configuration, with `null` as the fallback. */
  function GetMetricsJmxDomain(rs: Resolvers, reporterConf: ConfigMap): (domain: Option<string>)
    ensures (JMX_DOMAIN !in reporterConf || reporterConf[JMX_DOMAIN] == NullValue) ==>
              domain == rs.getString(None, None)
    ensures JMX_DOMAIN in reporterConf && reporterConf[JMX_DOMAIN] != NullValue ==>
              domain == rs.getString(Some(reporterConf[JMX_DOMAIN]), None)
  {
    rs.getString(Get(reporterConf, JMX_DOMAIN), None)
  }

  /** The builder `prepare` hands to `build`: each resolved option is applied
      only when it is non-null, in the order duration unit, rate unit, domain,
      filter. */
  function ConfiguredBuilder(rs: Resolvers, registry: MetricRegistry, reporterConf: ConfigMap): (b: BuilderOptions)
    ensures b.registry == registry
    ensures b.durationUnit == rs.durationUnit(reporterConf)
    ensures b.rateUnit == rs.rateUnit(reporterConf)
    ensures b.domain == GetMetricsJmxDomain(rs, reporterConf)
    ensures b.filter == rs.metricsFilter(reporterConf)
  {
    var b0 := ForRegistry(registry);
    var durationUnit := rs.durationUnit(reporterConf);
    var b1 := if durationUnit.Some? then ConvertDurationsTo(b0, durationUnit.value) else b0;
    var rateUnit := rs.rateUnit(reporterConf);
    var b2 := if rateUnit.Some? then ConvertRatesTo(b1, rateUnit.value) else b1;
    var domain := GetMetricsJmxDomain(rs, reporterConf);
    var b3 := if domain.Some? then InDomain(b2, domain.value) else b2;
    var filter := rs.metricsFilter(reporterConf);
    if filter.Some? then WithFilter(b3, filter.value) else b3
  }

  /** `prepare`: builds a new sink and stores it in the handle, replacing any
      earlier one. The process-wide `stormConf` is accepted but not read. */
  function Prepare(r: Reporter, rs: Resolvers, registry: MetricRegistry,
                   stormConf: ConfigMap, reporterConf: ConfigMap): (r': Reporter)
    ensures r'.handle.Some?
    ensures r'.handle.value.calls == []
    ensures r'.handle.value.options.registry == registry
    ensures r'.handle.value.options.durationUnit == rs.durationUnit(reporterConf)
    ensures r'.handle.value.options.rateUnit == rs.rateUnit(reporterConf)
    ensures r'.handle.value.options.domain == GetMetricsJmxDomain(rs, reporterConf)
    ensures r'.handle.value.options.filter == rs.metricsFilter(reporterConf)
  {
    Reporter(Some(Build(ConfiguredBuilder(rs, registry, reporterConf))))
  }

  /** `start`: delegates to the sink when there is one, otherwise fails. */
  function Start(r: Reporter): (res: Result<Reporter, LifecycleError>)
    ensures res.Success? <==> r.handle.Some?
    ensures res.Failure? ==> res.error == IllegalState(START_WITHOUT_PREPARE)
    ensures res.Success? ==>
              && res.value.handle.Some?
              && res.value.handle.value.options == r.handle.value.options
              && res.value.handle.value.calls == r.handle.value.calls + [SinkStart]
  {
    match r.handle
    case Some(sink) => Success(Reporter(Some(StartSink(sink))))
    case None => Failure(IllegalState(START_WITHOUT_PREPARE))
  }

  /** `stop`: delegates to the sink when there is one, otherwise fails. The
      handle is kept, so the reporter can be started again. */
  function Stop(r: Reporter): (res: Result<Reporter, LifecycleError>)
    ensures res.Success? <==> r.handle.Some?
    ensures res.Failure? ==> res.error == IllegalState(STOP_WITHOUT_PREPARE)
    ensures res.Success? ==>
              && res.value.handle.Some?
              && res.value.handle.value.options == r.handle.value.options
              && res.value.handle.value.calls == r.handle.value.calls + [SinkStop]
  {
    match r.handle
    case Some(sink) => Success(Reporter(Some(StopSink(sink))))
    case None => Failure(IllegalState(STOP_WITHOUT_PREPARE))
  }

  /** A fresh reporter refuses both `start` and `stop`, with distinct messages. */
  lemma FreshReporterRefusesStartAndStop()
    ensures Start(Create()) == Failure(IllegalState(START_WITHOUT_PREPARE))
    ensures Stop(Create()) == Failure(IllegalState(STOP_WITHOUT_PREPARE))
    ensures START_WITHOUT_PREPARE != STOP_WITHOUT_PREPARE
  {
  }

  /** Each option the built sink uses is the resolved one when resolution gave
      a value, and the library default otherwise. */
  lemma PreparedSinkUsesResolvedOrDefault(r: Reporter, rs: Resolvers, registry: MetricRegistry,
                                          stormConf: ConfigMap, reporterConf: ConfigMap,
                                          d: BackendDefaults)
    ensures var sink := Prepare(r, rs, registry, stormConf, reporterConf).handle.value;
            && EffectiveDurationUnit(sink, d) == rs.durationUnit(reporterConf).GetOr(d.durationUnit)
            && EffectiveRateUnit(sink, d) == rs.rateUnit(reporterConf).GetOr(d.rateUnit)
            && EffectiveDomain(sink, d) == GetMetricsJmxDomain(rs, reporterConf).GetOr(d.domain)
            && EffectiveFilter(sink, d) == rs.metricsFilter(reporterConf).GetOr(d.filter)
  {
  }

  /** The domain depends on the `"jmx.domain"` entry of the reporter
      configuration and on nothing else. */
  lemma DomainReadsOnlyJmxDomainKey(rs: Resolvers, c1: ConfigMap, c2: ConfigMap)
    requires JMX_DOMAIN in c1 <==> JMX_DOMAIN in c2
    requires JMX_DOMAIN in c1 ==> c1[JMX_DOMAIN] == c2[JMX_DOMAIN]
    ensures GetMetricsJmxDomain(rs, c1) == GetMetricsJmxDomain(rs, c2)
  {
  }

  /** With a string reader that passes strings through and falls back to its
      default on null: the domain is unset when `"jmx.domain"` is missing or
      null, and is the configured string when it holds a string. */
  lemma DomainIsConfiguredString(rs: Resolvers, reporterConf: ConfigMap)
    requires ReadsStrings(rs.getString)
    ensures JMX_DOMAIN !in reporterConf ==> GetMetricsJmxDomain(rs, reporterConf).None?
    ensures JMX_DOMAIN in reporterConf && reporterConf[JMX_DOMAIN] == NullValue ==>
              GetMetricsJmxDomain(rs, reporterConf).None?
    ensures forall s :: JMX_DOMAIN in reporterConf && reporterConf[JMX_DOMAIN] == StrValue(s) ==>
              GetMetricsJmxDomain(rs, reporterConf) == Some(s)
  {
  }

  /** `prepare` reads no option from `stormConf`: the reporter it produces
      depends only on the registry and the reporter configuration, and not on
      the reporter it was called on either. */
  lemma PrepareIgnoresStormConfAndPriorState(r1: Reporter, r2: Reporter, rs: Resolvers,
                                             registry: MetricRegistry,
                                             stormConf1: ConfigMap, stormConf2: ConfigMap,
                                             reporterConf: ConfigMap)
    ensures Prepare(r1, rs, registry, stormConf1, reporterConf)
         == Prepare(r2, rs, registry, stormConf2, reporterConf)
  {
  }

  /** Stopping keeps the handle, so `start` after `stop` passes the guard. */
  lemma StartAfterStopSucceeds(r: Reporter)
    requires Stop(r).Success?
    ensures Start(Stop(r).value).Success?
    ensures Start(Stop(r).value).value.handle.value.calls == r.handle.value.calls + [SinkStop, SinkStart]
  {
  }

  /** The scenario of a reporter configuration holding only `"jmx.domain"`
      set to `"app.metrics"`, when none of the other resolvers finds a value:
      the sink is placed in that domain and every other option keeps the
      library default. */
  lemma DomainOnlyScenario(rs: Resolvers, registry: MetricRegistry, stormConf: ConfigMap, d: BackendDefaults)
    requires ReadsStrings(rs.getString)
    requires rs.durationUnit(map[JMX_DOMAIN := StrValue("app.metrics")]).None?
    requires rs.rateUnit(map[JMX_DOMAIN := StrValue("app.metrics")]).None?
    requires rs.metricsFilter(map[JMX_DOMAIN := StrValue("app.metrics")]).None?
    ensures var sink := Prepare(Create(), rs, registry, stormConf, map[JMX_DOMAIN := StrValue("app.metrics")]).handle.value;
            && EffectiveDomain(sink, d) == "app.metrics"
            && EffectiveDurationUnit(sink, d) == d.durationUnit
            && EffectiveRateUnit(sink, d) == d.rateUnit
            && EffectiveFilter(sink, d) == d.filter
  {
  }
}
