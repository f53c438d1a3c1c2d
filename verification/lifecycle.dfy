/** Sequences of calls made on one `JmxStormReporter` by a single caller,
    each call as the reporter's own code handles it: a call either returns or
    throws, and a thrown `IllegalStateException` leaves the reporter as it was.
    A `prepare` on a reporter that already holds a sink overwrites the handle
    without stopping the old sink; the run keeps such replaced sinks, in the
    state they were left in, as `retired`. */
module Lifecycle {
  import opened Wrappers
  import opened Config
  import opened JmxBackend
  import opened JmxStormReporter

  datatype Call =
    | PrepareCall(registry: MetricRegistry, stormConf: ConfigMap, reporterConf: ConfigMap)
    | StartCall
    | StopCall

  datatype Outcome = Returned | Threw(error: LifecycleError)

  /** The final reporter of a run, the outcome of each call, in order, and the
      sinks that a `prepare` dropped from the handle, oldest first. */
  datatype Trace = Trace(final: Reporter, outcomes: seq<Outcome>, retired: seq<JmxSink>)

  /** The sink a call drops from the handle: the current one, when the call is a `prepare`. */
  function Dropped(r: Reporter, c: Call): (d: seq<JmxSink>)
    ensures |d| <= 1
    ensures |d| == 1 <==> c.PrepareCall? && r.handle.Some?
    ensures |d| == 1 ==> d[0] == r.handle.value
  {
    if c.PrepareCall? && r.handle.Some? then [r.handle.value] else []
  }

  /** One call on reporter `r`: the reporter afterwards and how the call ended. */
  function Step(rs: Resolvers, r: Reporter, c: Call): (step: (Reporter, Outcome))
  {
    match c
    case PrepareCall(registry, stormConf, reporterConf) =>
      (Prepare(r, rs, registry, stormConf, reporterConf), Returned)
    case StartCall =>
      (match Start(r)
       case Success(r') => (r', Returned)
       case Failure(e) => (r, Threw(e)))
    case StopCall =>
      (match Stop(r)
       case Success(r') => (r', Returned)
       case Failure(e) => (r, Threw(e)))
  }

  /** The calls in `calls`, made in order starting from `r`. */
  function Run(rs: Resolvers, r: Reporter, calls: seq<Call>): (t: Trace)
    ensures |t.outcomes| == |calls|
    decreases |calls|
  {
    if |calls| == 0 then Trace(r, [], [])
    else
      var step := Step(rs, r, calls[0]);
      var rest := Run(rs, step.0, calls[1..]);
      Trace(rest.final, [step.1] + rest.outcomes, Dropped(r, calls[0]) + rest.retired)
  }

  /** No `prepare` among the calls. */
  ghost predicate NoPrepare(calls: seq<Call>)
  {
    forall i :: 0 <= i < |calls| ==> !calls[i].PrepareCall?
  }

  /** Some `prepare` among the first `n` calls. */
  ghost predicate PreparedBefore(calls: seq<Call>, n: nat)
    requires n <= |calls|
  {
    exists j :: 0 <= j < n && calls[j].PrepareCall?
  }

  /** The error a `start` or `stop` on an unprepared reporter throws. */
  function GuardError(c: Call): (e: LifecycleError)
  {
    if c.StopCall? then IllegalState(STOP_WITHOUT_PREPARE) else IllegalState(START_WITHOUT_PREPARE)
  }

  /** The calls the reporter passes on to its sink for a run without `prepare`. */
  function Delegated(calls: seq<Call>): (log: seq<SinkCall>)
    requires NoPrepare(calls)
    ensures |log| == |calls|
    decreases |calls|
  {
    if |calls| == 0 then []
    else [SinkCallFor(calls[0])] + Delegated(calls[1..])
  }

  /** Running `a` then `b` is running `a + b`. */
  lemma {:induction false} RunAppend(rs: Resolvers, r: Reporter, a: seq<Call>, b: seq<Call>)
    ensures Run(rs, r, a + b).final == Run(rs, Run(rs, r, a).final, b).final
    ensures Run(rs, r, a + b).outcomes == Run(rs, r, a).outcomes + Run(rs, Run(rs, r, a).final, b).outcomes
    ensures Run(rs, r, a + b).retired == Run(rs, r, a).retired + Run(rs, Run(rs, r, a).final, b).retired
    decreases |a|
  {
    if |a| > 0 {
      var (r1, o) := Step(rs, r, a[0]);
      assert (a + b)[1..] == a[1..] + b;
      RunAppend(rs, r1, a[1..], b);
    } else {
      assert a + b == b;
    }
  }

  /** Before any `prepare`, every `start` and `stop` throws its invalid-state
      error and the reporter is left exactly as it was. */
  lemma {:induction false} UnpreparedCallsAllThrow(rs: Resolvers, r: Reporter, calls: seq<Call>)
    requires r.handle.None?
    requires NoPrepare(calls)
    ensures Run(rs, r, calls).final == r
    ensures forall i :: 0 <= i < |calls| ==> Run(rs, r, calls).outcomes[i] == Threw(GuardError(calls[i]))
    decreases |calls|
  {
    if |calls| > 0 {
      assert !calls[0].PrepareCall?;
      UnpreparedCallsAllThrow(rs, r, calls[1..]);
      var t := Run(rs, r, calls);
      forall i | 0 <= i < |calls|
        ensures t.outcomes[i] == Threw(GuardError(calls[i]))
      {
        if i > 0 {
          assert calls[1..][i - 1] == calls[i];
        }
      }
    }
  }

  /** Once the handle is set, every later call returns normally and the
      handle stays set: `stop` does not clear it and `prepare` replaces it. */
  lemma {:induction false} PreparedCallsAllReturn(rs: Resolvers, r: Reporter, calls: seq<Call>)
    requires r.handle.Some?
    ensures Run(rs, r, calls).final.handle.Some?
    ensures forall i :: 0 <= i < |calls| ==> Run(rs, r, calls).outcomes[i] == Returned
    decreases |calls|
  {
    if |calls| > 0 {
      var (r1, o) := Step(rs, r, calls[0]);
      PreparedCallsAllReturn(rs, r1, calls[1..]);
    }
  }

  /** The sink call a `start` or `stop` is passed on as. */
  function SinkCallFor(c: Call): (sc: SinkCall)
  {
    if c.StartCall? then SinkStart else SinkStop
  }

  /** One `start` or `stop` on a prepared reporter records one call on its sink. */
  lemma StepDelegates(rs: Resolvers, r: Reporter, c: Call)
    requires r.handle.Some?
    requires !c.PrepareCall?
    ensures Step(rs, r, c).0.handle.Some?
    ensures Step(rs, r, c).0.handle.value.options == r.handle.value.options
    ensures Step(rs, r, c).0.handle.value.calls == r.handle.value.calls + [SinkCallFor(c)]
  {
  }

  /** Without `prepare`, a prepared reporter keeps its sink and passes on
      every `start` and `stop` to it, in order. */
  lemma {:induction false} CallsAreDelegated(rs: Resolvers, r: Reporter, calls: seq<Call>)
    requires r.handle.Some?
    requires NoPrepare(calls)
    ensures Run(rs, r, calls).final.handle.Some?
    ensures Run(rs, r, calls).final.handle.value.options == r.handle.value.options
    ensures Run(rs, r, calls).final.handle.value.calls == r.handle.value.calls + Delegated(calls)
    decreases |calls|
  {
    if |calls| > 0 {
      var c := calls[0];
      var rest := calls[1..];
      var r1 := Step(rs, r, c).0;
      assert NoPrepare(rest) by {
        forall i | 0 <= i < |rest| ensures !rest[i].PrepareCall? {
          assert rest[i] == calls[i + 1];
        }
      }
      assert r1.handle.Some? && r1.handle.value.options == r.handle.value.options
          && r1.handle.value.calls == r.handle.value.calls + [SinkCallFor(c)] by {
        assert !c.PrepareCall?;
        StepDelegates(rs, r, c);
      }
      CallsAreDelegated(rs, r1, rest);
      assert Run(rs, r, calls).final == Run(rs, r1, rest).final;
      calc {
        Run(rs, r1, rest).final.handle.value.calls;
        r1.handle.value.calls + Delegated(rest);
        r.handle.value.calls + ([SinkCallFor(c)] + Delegated(rest));
        { assert Delegated(calls) == [SinkCallFor(c)] + Delegated(rest); }
        r.handle.value.calls + Delegated(calls);
      }
    }
  }

  /** Calls without `prepare` drop no sink from the handle. */
  lemma {:induction false} UnpreparedCallsRetireNothing(rs: Resolvers, r: Reporter, calls: seq<Call>)
    requires NoPrepare(calls)
    ensures Run(rs, r, calls).retired == []
    ensures r.handle.Some? ==>
              && Run(rs, r, calls).final.handle.Some?
              && Run(rs, r, calls).final.handle.value.options == r.handle.value.options
    ensures r.handle.None? ==> Run(rs, r, calls).final.handle.None?
    decreases |calls|
  {
    if r.handle.Some? {
      CallsAreDelegated(rs, r, calls);
    } else {
      UnpreparedCallsAllThrow(rs, r, calls);
    }
    if |calls| > 0 {
      var rest := calls[1..];
      assert NoPrepare(rest) by {
        forall i | 0 <= i < |rest| ensures !rest[i].PrepareCall? {
          assert rest[i] == calls[i + 1];
        }
      }
      assert !calls[0].PrepareCall?;
      UnpreparedCallsRetireNothing(rs, Step(rs, r, calls[0]).0, rest);
    }
  }

  /** One call on a prepared reporter either keeps its sink, passing a
      `start` or `stop` on to it, or drops it from the handle and replaces it
      with a sink on which nothing has been called; only the second case adds
      the old sink to the retired ones. */
  lemma StepKeepsOrRetiresSink(rs: Resolvers, r: Reporter, c: Call)
    requires r.handle.Some?
    ensures Step(rs, r, c).0.handle.Some?
    ensures Dropped(r, c) == [] ==>
              && Step(rs, r, c).0.handle.value.options == r.handle.value.options
              && Step(rs, r, c).0.handle.value.calls == r.handle.value.calls + [SinkCallFor(c)]
    ensures Dropped(r, c) == [r.handle.value] ==> Step(rs, r, c).0.handle.value.calls == []
    ensures Dropped(r, c) == [] || Dropped(r, c) == [r.handle.value]
  {
  }

  /** A `prepare` drops the sink the handle held, exactly as that sink was
      left, and nothing is called on it afterwards: when the later calls hold
      no `prepare`, it is the last retired sink of the run. */
  lemma PrepareRetiresCurrentSink(rs: Resolvers, r: Reporter, before: seq<Call>,
                                  registry: MetricRegistry, stormConf: ConfigMap, reporterConf: ConfigMap,
                                  after: seq<Call>)
    requires NoPrepare(after)
    ensures var h := Run(rs, r, before).final.handle;
            Run(rs, r, before + [PrepareCall(registry, stormConf, reporterConf)] + after).retired
            == Run(rs, r, before).retired + (if h.Some? then [h.value] else [])
    ensures Run(rs, r, before + [PrepareCall(registry, stormConf, reporterConf)] + after).final.handle
            == Some(JmxSink(ConfiguredBuilder(rs, registry, reporterConf), Delegated(after)))
  {
    HandleIsLastPreparedSink(rs, r, before, registry, stormConf, reporterConf, after);
    var p := PrepareCall(registry, stormConf, reporterConf);
    var mid := Run(rs, r, before).final;
    RunAppend(rs, r, before + [p], after);
    RunAppend(rs, r, before, [p]);
    UnpreparedCallsRetireNothing(rs, Run(rs, r, before + [p]).final, after);
    assert Run(rs, mid, [p]).retired == Dropped(mid, p) by {
      assert [p][1..] == [];
    }
  }

  /** `prepare`, `start`, `prepare`, `stop`: the first sink was started and is
      never stopped, since the second `prepare` replaced it and `stop` reaches
      only the second sink. */
  lemma ReplacedSinkIsLeftStarted(rs: Resolvers, registry: MetricRegistry, stormConf: ConfigMap,
                                  conf1: ConfigMap, conf2: ConfigMap)
    ensures var t := Run(rs, Create(), [PrepareCall(registry, stormConf, conf1), StartCall,
                                        PrepareCall(registry, stormConf, conf2), StopCall]);
            && t.retired == [JmxSink(ConfiguredBuilder(rs, registry, conf1), [SinkStart])]
            && t.final.handle == Some(JmxSink(ConfiguredBuilder(rs, registry, conf2), [SinkStop]))
  {
    var p1 := PrepareCall(registry, stormConf, conf1);
    var p2 := PrepareCall(registry, stormConf, conf2);
    var calls := [p1, StartCall, p2, StopCall];
    assert NoPrepare([StartCall]);
    assert NoPrepare([StopCall]);
    assert [] + [p1] + [StartCall] == [p1, StartCall];
    assert [p1, StartCall] + [p2] + [StopCall] == calls;
    assert [StartCall][1..] == [] && [StopCall][1..] == [];
    assert Delegated([StartCall]) == [SinkStart];
    assert Delegated([StopCall]) == [SinkStop];
    HandleIsLastPreparedSink(rs, Create(), [], registry, stormConf, conf1, [StartCall]);
    PrepareRetiresCurrentSink(rs, Create(), [], registry, stormConf, conf1, [StartCall]);
    assert Run(rs, Create(), []).retired == [];
    HandleIsLastPreparedSink(rs, Create(), [p1, StartCall], registry, stormConf, conf2, [StopCall]);
    PrepareRetiresCurrentSink(rs, Create(), [p1, StartCall], registry, stormConf, conf2, [StopCall]);
  }

  /** After any history, the handle holds the sink built by the most recent
      `prepare`, on which exactly the later `start` and `stop` calls have
      been made. */
  lemma HandleIsLastPreparedSink(rs: Resolvers, r: Reporter, before: seq<Call>,
                                 registry: MetricRegistry, stormConf: ConfigMap, reporterConf: ConfigMap,
                                 after: seq<Call>)
    requires NoPrepare(after)
    ensures var t := Run(rs, r, before + [PrepareCall(registry, stormConf, reporterConf)] + after);
            && t.final.handle.Some?
            && t.final.handle.value.options == ConfiguredBuilder(rs, registry, reporterConf)
            && t.final.handle.value.calls == Delegated(after)
  {
    var p := PrepareCall(registry, stormConf, reporterConf);
    RunAppend(rs, r, before + [p], after);
    RunAppend(rs, r, before, [p]);
    var rp := Run(rs, r, before + [p]).final;
    assert rp == Prepare(Run(rs, r, before).final, rs, registry, stormConf, reporterConf);
    CallsAreDelegated(rs, rp, after);
  }

  /** From a fresh reporter, a call returns normally if and only if it is a
      `prepare` or some `prepare` came before it; otherwise it throws its
      invalid-state error. Generalised over the starting reporter. */
  lemma {:induction false} ReturnsIffPrepared(rs: Resolvers, r: Reporter, calls: seq<Call>, i: nat)
    requires i < |calls|
    ensures Run(rs, r, calls).outcomes[i] == Returned
            <==> r.handle.Some? || calls[i].PrepareCall? || PreparedBefore(calls, i)
    ensures Run(rs, r, calls).outcomes[i] != Returned
            ==> Run(rs, r, calls).outcomes[i] == Threw(GuardError(calls[i]))
    decreases i
  {
    var (r1, o) := Step(rs, r, calls[0]);
    if i > 0 {
      ReturnsIffPrepared(rs, r1, calls[1..], i - 1);
      assert calls[1..][i - 1] == calls[i];
      assert r1.handle.Some? <==> r.handle.Some? || calls[0].PrepareCall?;
      if PreparedBefore(calls[1..], i - 1) {
        var j :| 0 <= j < i - 1 && calls[1..][j].PrepareCall?;
        assert calls[j + 1].PrepareCall?;
      }
      if PreparedBefore(calls, i) {
        var j :| 0 <= j < i && calls[j].PrepareCall?;
        if j > 0 {
          assert calls[1..][j - 1].PrepareCall?;
        }
      }
    } else {
      assert !PreparedBefore(calls, 0);
    }
  }

  /** The fresh-reporter instance: `start` and `stop` succeed exactly after a `prepare`. */
  lemma FreshReporterGuard(rs: Resolvers, calls: seq<Call>, i: nat)
    requires i < |calls|
    requires !calls[i].PrepareCall?
    ensures Run(rs, Create(), calls).outcomes[i] == Returned <==> PreparedBefore(calls, i)
    ensures !PreparedBefore(calls, i) ==> Run(rs, Create(), calls).outcomes[i] == Threw(GuardError(calls[i]))
  {
    ReturnsIffPrepared(rs, Create(), calls, i);
  }

  /** A `prepare` followed by calls without `prepare`: every call returns,
      and the handle ends as the new sink with exactly the later calls on it. */
  lemma PrepareThenDelegate(rs: Resolvers, r: Reporter, p: Call, tail: seq<Call>)
    requires p.PrepareCall?
    requires NoPrepare(tail)
    ensures forall i :: 0 <= i < |tail| + 1 ==> Run(rs, r, [p] + tail).outcomes[i] == Returned
    ensures Run(rs, r, [p] + tail).final.handle
            == Some(JmxSink(ConfiguredBuilder(rs, p.registry, p.reporterConf), Delegated(tail)))
  {
    var prepared := Run(rs, r, [p]);
    assert prepared.final.handle.Some? && prepared.outcomes == [Returned] by {
      assert [p][1..] == [];
      var step := Step(rs, r, p);
      assert Run(rs, step.0, []) == Trace(step.0, [], []);
    }
    RunAppend(rs, r, [p], tail);
    PreparedCallsAllReturn(rs, prepared.final, tail);
    HandleIsLastPreparedSink(rs, r, [], p.registry, p.stormConf, p.reporterConf, tail);
    assert [] + [p] + tail == [p] + tail;
  }

  /** `prepare`, `start`, `stop`, `start`: all four return, and the sink has
      been started, stopped and started again. */
  lemma RestartAfterStop(rs: Resolvers, registry: MetricRegistry, stormConf: ConfigMap, reporterConf: ConfigMap)
    ensures var t := Run(rs, Create(), [PrepareCall(registry, stormConf, reporterConf), StartCall, StopCall, StartCall]);
            && t.outcomes == [Returned, Returned, Returned, Returned]
            && t.final.handle.Some?
            && t.final.handle.value.calls == [SinkStart, SinkStop, SinkStart]
  {
    var p := PrepareCall(registry, stormConf, reporterConf);
    var tail := [StartCall, StopCall, StartCall];
    assert NoPrepare(tail);
    PrepareThenDelegate(rs, Create(), p, tail);
    assert [p] + tail == [p, StartCall, StopCall, StartCall];
    assert Delegated(tail) == [SinkStart, SinkStop, SinkStart] by {
      assert [StartCall][1..] == [];
      assert Delegated([StartCall]) == [SinkStart];
      assert [StopCall, StartCall][1..] == [StartCall];
      assert Delegated([StopCall, StartCall]) == [SinkStop, SinkStart];
      assert tail[1..] == [StopCall, StartCall];
    }
  }



  /** A second `prepare` returns normally and leaves a fresh sink built from
      the new configuration, however the reporter was used before. */
  lemma RePrepareReplacesSink(rs: Resolvers, r: Reporter, before: seq<Call>,
                              registry: MetricRegistry, stormConf: ConfigMap, reporterConf: ConfigMap)
    ensures var t := Run(rs, r, before + [PrepareCall(registry, stormConf, reporterConf)]);
            && t.outcomes[|before|] == Returned
            && t.final.handle == Some(Build(ConfiguredBuilder(rs, registry, reporterConf)))
  {
    RunAppend(rs, r, before, [PrepareCall(registry, stormConf, reporterConf)]);
  }
}
