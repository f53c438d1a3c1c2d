/** The boundary to the Codahale metrics library: `JmxReporter.Builder` and the
    `JmxReporter` sink it builds. The library's internals (MBean registration,
    what starting and stopping do inside JMX) are outside the model: a sink is
    the options it was built with plus the record of calls delegated to it. */
module JmxBackend {
  import opened Wrappers
  import opened Config

  /** The metric registry a reporter reads from; only its identity matters here. */
  datatype MetricRegistry = MetricRegistry(id: nat)

  /** `StormMetricsFilter`: decides whether a metric of the given name is reported. */
  datatype MetricFilter = MetricFilter(matches: string -> bool)

  /** The options a `JmxReporter.Builder` carries. `None` means the option was
      never set, so the library's own default applies. */
  datatype BuilderOptions = BuilderOptions(
    registry: MetricRegistry,
    durationUnit: Option<TimeUnit>,
    rateUnit: Option<TimeUnit>,
    domain: Option<string>,
    filter: Option<MetricFilter>)

  /** The library's defaults for the options a builder leaves unset. */
  datatype BackendDefaults = BackendDefaults(
    durationUnit: TimeUnit,
    rateUnit: TimeUnit,
    domain: string,
    filter: MetricFilter)

  /** A call the Storm reporter delegates to the sink. */
  datatype SinkCall = SinkStart | SinkStop

  /** A built `JmxReporter`: its options and the calls made on it, oldest first. */
  datatype JmxSink = JmxSink(options: BuilderOptions, calls: seq<SinkCall>)

  /** `JmxReporter.forRegistry`: a builder with every option at the library default. */
  function ForRegistry(registry: MetricRegistry): (b: BuilderOptions)
    ensures b.registry == registry
    ensures b.durationUnit.None? && b.rateUnit.None? && b.domain.None? && b.filter.None?
  {
    BuilderOptions(registry, None, None, None, None)
  }

  /** `Builder.convertDurationsTo`: sets the duration unit, nothing else. */
  function ConvertDurationsTo(b: BuilderOptions, unit: TimeUnit): (b': BuilderOptions)
    ensures b'.durationUnit == Some(unit)
    ensures b'.(durationUnit := b.durationUnit) == b
  {
    b.(durationUnit := Some(unit))
  }

  /** `Builder.convertRatesTo`: sets the rate unit, nothing else. */
  function ConvertRatesTo(b: BuilderOptions, unit: TimeUnit): (b': BuilderOptions)
    ensures b'.rateUnit == Some(unit)
    ensures b'.(rateUnit := b.rateUnit) == b
  {
    b.(rateUnit := Some(unit))
  }

  /** `Builder.inDomain`: sets the JMX domain, nothing else. */
  function InDomain(b: BuilderOptions, domain: string): (b': BuilderOptions)
    ensures b'.domain == Some(domain)
    ensures b'.(domain := b.domain) == b
  {
    b.(domain := Some(domain))
  }

  /** `Builder.filter`: sets the metric filter, nothing else. */
  function WithFilter(b: BuilderOptions, filter: MetricFilter): (b': BuilderOptions)
    ensures b'.filter == Some(filter)
    ensures b'.(filter := b.filter) == b
  {
    b.(filter := Some(filter))
  }

  /** `Builder.build`: a sink with the builder's options on which nothing has been called yet. */
  function Build(b: BuilderOptions): (s: JmxSink)
    ensures s.options == b
    ensures |s.calls| == 0
  {
    JmxSink(b, [])
  }

  /** `JmxReporter.start`, seen from outside: the options stay, the call is recorded. */
  function StartSink(s: JmxSink): (s': JmxSink)
    ensures s'.options == s.options
    ensures |s'.calls| == |s.calls| + 1 && s'.calls[..|s.calls|] == s.calls
    ensures s'.calls[|s.calls|] == SinkStart
  {
    s.(calls := s.calls + [SinkStart])
  }

  /** `JmxReporter.stop`, seen from outside: the options stay, the call is recorded. */
  function StopSink(s: JmxSink): (s': JmxSink)
    ensures s'.options == s.options
    ensures |s'.calls| == |s.calls| + 1 && s'.calls[..|s.calls|] == s.calls
    ensures s'.calls[|s.calls|] == SinkStop
  {
    s.(calls := s.calls + [SinkStop])
  }

  /** The duration unit a sink actually uses. */
  function EffectiveDurationUnit(s: JmxSink, d: BackendDefaults): (u: TimeUnit)
    ensures s.options.durationUnit.Some? ==> u == s.options.durationUnit.value
    ensures s.options.durationUnit.None? ==> u == d.durationUnit
  {
    s.options.durationUnit.GetOr(d.durationUnit)
  }

  /** The rate unit a sink actually uses. */
  function EffectiveRateUnit(s: JmxSink, d: BackendDefaults): (u: TimeUnit)
    ensures s.options.rateUnit.Some? ==> u == s.options.rateUnit.value
    ensures s.options.rateUnit.None? ==> u == d.rateUnit
  {
    s.options.rateUnit.GetOr(d.rateUnit)
  }

  /** The JMX domain a sink actually registers under. */
  function EffectiveDomain(s: JmxSink, d: BackendDefaults): (dom: string)
    ensures s.options.domain.Some? ==> dom == s.options.domain.value
    ensures s.options.domain.None? ==> dom == d.domain
  {
    s.options.domain.GetOr(d.domain)
  }

  /** The filter a sink actually applies. */
  function EffectiveFilter(s: JmxSink, d: BackendDefaults): (f: MetricFilter)
    ensures s.options.filter.Some? ==> f == s.options.filter.value
    ensures s.options.filter.None? ==> f == d.filter
  {
    s.options.filter.GetOr(d.filter)
  }
}
